// The reporting protocol as a state machine: one reporter installation, its request log, its
// state file and the sidecar's table, with crashes, lost messages and lost state files
// (cc_usage_reporter/cc_usage_reporter/reporter.py, state.py and sidecar/main.go).
module Protocol {
  import opened Options
  import opened Text
  import opened UsageLog
  import opened Sidecar
  import opened Client

  /* ---------- states ---------- */

  // The state file: missing, corrupt or without buckets, or holding a bucket map.
  datatype Disk = Unreadable | Readable(marks: Marks)

  // Where a run stands with its current chunk.
  datatype Stage = Ready | InFlight | Acked | Marked

  // The run that holds the lock. `snap` is the log it read.
  datatype Run =
    | NoRun
    | Loaded(mem: Marks)
    | Sending(mem: Marks, snap: seq<LogRow>, pending: seq<Bucket>, done: nat, stage: Stage)

  // A request whose sender gave up on it; the server may still receive it.
  datatype Stray = Stray(snap: seq<LogRow>, chunk: seq<Bucket>)

  // `saved` remembers every bucket map the state file ever held.
  datatype Sys = Sys(log: seq<LogRow>, disk: Disk, saved: set<Marks>, table: Table, run: Run, strays: seq<Stray>)

  const START: Sys := Sys([], Unreadable, {map[]}, map[], NoRun, [])

  /* ---------- steps ---------- */

  datatype Event =
    | Append(row: LogRow)          // CC Switch logs a request
    | Begin(early: Marks)          // lock taken, state file read again; `early` was read before the lock
    | Read                         // log aggregated, pending buckets and signatures computed
    | Send                         // next chunk posted
    | Respond(lost: bool)          // server handles the request; its answer arrives or is lost
    | GiveUp                       // timeout or crash with the request still under way
    | Mark                         // signatures of the acknowledged chunk noted in memory
    | Save                         // state file replaced
    | Finish                       // all chunks done: last save, lock released
    | Crash                        // the process ends anywhere else
    | Lose(disk: Disk)             // state file lost, damaged or replaced by an older one
    | Deliver(i: nat)              // a request given up on reaches the server after all

  function LoadMarks(disk: Disk, early: Marks): Marks {
    if disk.Readable? then disk.marks else early
  }

  function Chunk(c: Client, pending: seq<Bucket>, done: nat): (chunk: seq<Bucket>)
    requires done <= |pending|
    ensures forall b :: b in chunk ==> b in pending
  {
    if c.batchSize < 0 then []
    else if done + c.batchSize <= |pending| then pending[done..done + c.batchSize]
    else pending[done..]
  }

  function AfterResponse(c: Client, s: Sys, chunk: seq<Bucket>, lost: bool): Sys
    requires s.run.Sending?
  {
    var (response, table) := ServeChunk(c, s.table, chunk);
    if FullyAccepted(response, |chunk|) && !lost then s.(table := table, run := s.run.(stage := Acked))
    else s.(table := table, run := NoRun)
  }

  // The state after an event, None where the event cannot happen.
  function Next(c: Client, s: Sys, e: Event): Option<Sys> {
    match e
    case Append(row) => Some(s.(log := s.log + [row]))
    case Begin(early) =>
      if s.run.NoRun? && early in s.saved then Some(s.(run := Loaded(LoadMarks(s.disk, early)))) else None
    case Read =>
      if s.run.Loaded? then
        Some(s.(run := Sending(s.run.mem, s.log, Pending(c, Buckets(c.filter, s.log), s.run.mem), 0, Ready)))
      else None
    case Send =>
      if s.run.Sending? && s.run.stage == Ready && s.run.done < |s.run.pending| && c.batchSize > 0
      then Some(s.(run := s.run.(stage := InFlight))) else None
    case Respond(lost) =>
      if s.run.Sending? && s.run.stage == InFlight && s.run.done <= |s.run.pending|
      then Some(AfterResponse(c, s, Chunk(c, s.run.pending, s.run.done), lost)) else None
    case GiveUp =>
      if s.run.Sending? && s.run.stage == InFlight && s.run.done <= |s.run.pending|
      then Some(s.(run := NoRun, strays := s.strays + [Stray(s.run.snap, Chunk(c, s.run.pending, s.run.done))]))
      else None
    case Mark =>
      if s.run.Sending? && s.run.stage == Acked && s.run.done <= |s.run.pending| then
        var chunk := Chunk(c, s.run.pending, s.run.done);
        var sigs := SignatureMap(c, Buckets(c.filter, s.run.snap));
        if forall b :: b in chunk ==> StateKey(c.source, b.id) in sigs
        then Some(s.(run := s.run.(mem := MarkAll(c, s.run.mem, chunk, sigs), stage := Marked)))
        else None
      else None
    case Save =>
      if s.run.Sending? && s.run.stage == Marked && s.run.done <= |s.run.pending| then
        Some(s.(disk := Readable(s.run.mem), saved := s.saved + {s.run.mem},
                run := s.run.(done := s.run.done + |Chunk(c, s.run.pending, s.run.done)|, stage := Ready)))
      else None
    case Finish =>
      if s.run.Sending? && s.run.stage == Ready && (s.run.done == |s.run.pending| || c.batchSize < 0)
      then Some(s.(disk := Readable(s.run.mem), saved := s.saved + {s.run.mem}, run := NoRun)) else None
    case Crash =>
      if s.run != NoRun && !(s.run.Sending? && s.run.stage == InFlight) then Some(s.(run := NoRun)) else None
    case Lose(disk) =>
      if disk.Unreadable? || disk.marks in s.saved then Some(s.(disk := disk)) else None
    case Deliver(i) =>
      if i < |s.strays| then Some(s.(table := ServeChunk(c, s.table, s.strays[i].chunk).1)) else None
  }

  function Exec(c: Client, s: Sys, events: seq<Event>): Option<Sys> {
    if events == [] then Some(s)
    else
      var before := Exec(c, s, events[..|events| - 1]);
      if before.Some? then Next(c, before.value, events[|events| - 1]) else None
  }

  // No request reaches the server so late that it carries an older value of a bucket than
  // the one already stored: the upsert has no guard of its own against that.
  ghost predicate OnTime(c: Client, s: Sys, e: Event) {
    e.Deliver? && e.i < |s.strays| ==>
      forall b :: b in s.strays[e.i].chunk && RowKeyOf(c, b.id) in s.table ==>
        s.table[RowKeyOf(c, b.id)].requests <= b.usage.requests
  }

  ghost predicate AllOnTime(c: Client, s: Sys, events: seq<Event>) {
    events != [] ==>
      var front := events[..|events| - 1];
      AllOnTime(c, s, front)
      && (Exec(c, s, front).Some? ==> OnTime(c, Exec(c, s, front).value, events[|events| - 1]))
  }

  /* ---------- what is claimed ---------- */

  ghost predicate Live(c: Client, log: seq<LogRow>, k: RawKey) {
    RowsOf(c.filter, log, k) != []
  }

  // The bucket of `k` when its first n rows were in the log.
  function Past(c: Client, log: seq<LogRow>, k: RawKey, n: nat): Usage
    requires n <= |RowsOf(c.filter, log, k)|
  {
    Total(RowsOf(c.filter, log, k)[..n])
  }

  function Current(c: Client, log: seq<LogRow>, k: RawKey): Usage {
    Total(RowsOf(c.filter, log, k))
  }

  function SlotOf(c: Client, k: RawKey): string {
    StateKey(c.source, IdOf(k))
  }

  function RowOf(c: Client, k: RawKey): RowKey {
    RowKeyOf(c, IdOf(k))
  }

  // Two buckets the protocol cannot tell apart: they share a slot of the state file or a row
  // of the table. Buckets without a model name are never stored, so a pair of those does no harm.
  predicate Clash(c: Client, k: RawKey, l: RawKey) {
    && k != l
    && (SlotOf(c, k) == SlotOf(c, l) || RowOf(c, k) == RowOf(c, l))
    && (!Blank(k.model) || !Blank(l.model))
  }

  ghost predicate Separate(c: Client, log: seq<LogRow>) {
    forall k, l :: Live(c, log, k) && Live(c, log, l) ==> !Clash(c, k, l)
  }

  // The bucket maps a reporter may consult: any that was ever saved, and the one in memory.
  predicate Consulted(s: Sys, marks: Marks) {
    marks in s.saved || (s.run != NoRun && s.run.mem == marks)
  }

  // A bucket that would be skipped as unchanged is stored with its current value.
  ghost predicate SkipSafeFor(c: Client, s: Sys, marks: Marks, k: RawKey) {
    Live(c, s.log, k) && SlotOf(c, k) in marks && marks[SlotOf(c, k)] == Signature(Current(c, s.log, k)) ==>
      At(s.table, RowOf(c, k)) == Some(Stored(Current(c, s.log, k)))
  }

  ghost predicate SkipSafe(c: Client, s: Sys) {
    forall marks, k :: Consulted(s, marks) ==> SkipSafeFor(c, s, marks, k)
  }

  // What the machine leaves open: requests are logged at any time, the state file can be lost at
  // any time and any file it ever was can come back, a request given up on can arrive at any
  // time, and a process can end at any point of its run.
  lemma TroubleIsAlwaysPossible(c: Client, s: Sys)
    ensures forall row :: Next(c, s, Append(row)) == Some(s.(log := s.log + [row]))
    ensures Next(c, s, Lose(Unreadable)) == Some(s.(disk := Unreadable))
    ensures forall marks :: marks in s.saved ==> Next(c, s, Lose(Readable(marks))) == Some(s.(disk := Readable(marks)))
    ensures forall i: nat :: i < |s.strays| ==>
              Next(c, s, Deliver(i)) == Some(s.(table := ServeChunk(c, s.table, s.strays[i].chunk).1))
    ensures s.run != NoRun && (s.run.Sending? ==> s.run.done <= |s.run.pending|) ==>
              || Next(c, s, Crash) == Some(s.(run := NoRun))
              || exists stray :: Next(c, s, GiveUp) == Some(s.(run := NoRun, strays := s.strays + [stray]))
  {
    hide ServeChunk, Buckets, SignatureMap, MarkAll;
    if s.run.Sending? && s.run.stage == InFlight && s.run.done <= |s.run.pending| {
      assert Next(c, s, GiveUp)
          == Some(s.(run := NoRun, strays := s.strays + [Stray(s.run.snap, Chunk(c, s.run.pending, s.run.done))]));
    }
  }

  /* ---------- the invariant ---------- */

  // A stored row is an earlier value of its bucket, or the current one.
  ghost predicate RowOk(c: Client, log: seq<LogRow>, table: Table, k: RawKey) {
    Live(c, log, k) && RowOf(c, k) in table ==>
      var u := table[RowOf(c, k)];
      && !Blank(k.model)
      && 1 <= u.requests <= |RowsOf(c.filter, log, k)|
      && u == Stored(Past(c, log, k, u.requests))
  }

  ghost predicate AckedAs(c: Client, log: seq<LogRow>, k: RawKey, sig: string, n: nat) {
    1 <= n <= |RowsOf(c.filter, log, k)| && sig == Signature(Past(c, log, k, n))
  }

  // acknowledged value <= stored value, in the history of the bucket, unless the acknowledged
  // value is outdated: then the slot can never hide anything again
  ghost predicate MarkOk(c: Client, log: seq<LogRow>, table: Table, marks: Marks, k: RawKey) {
    Live(c, log, k) && SlotOf(c, k) in marks ==>
      && RowOf(c, k) in table
      && exists n: nat :: NotAhead(c, log, table, k, n) && AckedAs(c, log, k, marks[SlotOf(c, k)], n)
  }

  ghost predicate NotAhead(c: Client, log: seq<LogRow>, table: Table, k: RawKey, n: nat)
    requires RowOf(c, k) in table
  {
    n <= table[RowOf(c, k)].requests || n < |RowsOf(c.filter, log, k)|
  }

  // The row of an acknowledged bucket holds it, unless the bucket has grown in the meantime.
  ghost predicate AckedOk(c: Client, log: seq<LogRow>, table: Table, snap: seq<LogRow>, b: Bucket) {
    && !Blank(b.id.model) && RowKeyOf(c, b.id) in table
    && forall k :: Live(c, snap, k) && b == BucketOf(c.filter, snap, k) && SameRows(c, snap, log, k) ==>
         table[RowKeyOf(c, b.id)] == Stored(b.usage)
  }

  ghost predicate SameRows(c: Client, snap: seq<LogRow>, log: seq<LogRow>, k: RawKey) {
    RowsOf(c.filter, snap, k) == RowsOf(c.filter, log, k)
  }

  // The slot belongs to a bucket of the log.
  ghost predicate SlotInUse(c: Client, log: seq<LogRow>, slot: string) {
    exists k :: Live(c, log, k) && !Blank(k.model) && SlotOf(c, k) == slot
  }

  ghost predicate MarksOk(c: Client, log: seq<LogRow>, table: Table, marks: Marks) {
    && (forall k :: MarkOk(c, log, table, marks, k))
    && (forall slot :: slot in marks ==> SlotInUse(c, log, slot))
  }

  // stored value <= value in the snapshot of the run
  ghost predicate BoundOk(c: Client, s: Sys, snap: seq<LogRow>, k: RawKey) {
    Live(c, s.log, k) && RowOf(c, k) in s.table ==>
      s.table[RowOf(c, k)].requests <= |RowsOf(c.filter, snap, k)|
  }

  ghost predicate FromSnapshot(c: Client, snap: seq<LogRow>, bs: seq<Bucket>) {
    forall b :: b in bs ==> b in Buckets(c.filter, snap)
  }

  ghost predicate StrayOk(c: Client, log: seq<LogRow>, stray: Stray) {
    stray.snap <= log && FromSnapshot(c, stray.snap, stray.chunk)
  }

  ghost predicate RunOk(c: Client, s: Sys) {
    match s.run
    case NoRun => true
    case Loaded(mem) => MarksOk(c, s.log, s.table, mem)
    case Sending(mem, snap, pending, done, stage) =>
      && MarksOk(c, s.log, s.table, mem)
      && snap <= s.log
      && FromSnapshot(c, snap, pending)
      && done <= |pending|
      && (forall k :: BoundOk(c, s, snap, k))
      && (forall i :: 0 <= i < |s.strays| ==> s.strays[i].snap <= snap)
      && (stage == Acked ==> forall b :: b in Chunk(c, pending, done) ==> AckedOk(c, s.log, s.table, snap, b))
  }

  // The row belongs to a bucket of the log.
  ghost predicate RowInUse(c: Client, log: seq<LogRow>, rk: RowKey) {
    exists k :: Live(c, log, k) && RowOf(c, k) == rk
  }

  ghost predicate NoForeignRows(c: Client, s: Sys) {
    forall rk :: rk in s.table ==> RowInUse(c, s.log, rk)
  }

  ghost predicate Inv(c: Client, s: Sys) {
    && (forall k :: RowOk(c, s.log, s.table, k))
    && (forall marks :: marks in s.saved ==> MarksOk(c, s.log, s.table, marks))
    && (s.disk.Readable? ==> s.disk.marks in s.saved)
    && (forall i :: 0 <= i < |s.strays| ==> StrayOk(c, s.log, s.strays[i]))
    && RunOk(c, s)
    && NoForeignRows(c, s)
  }

  /* ---------- the invariant gives skip safety ---------- */

  // The sandwich: acknowledged <= stored <= current, so equal ends force equality throughout.
  lemma Sandwich(c: Client, s: Sys, marks: Marks, k: RawKey)
    requires RowOk(c, s.log, s.table, k)
    requires MarkOk(c, s.log, s.table, marks, k)
    ensures SkipSafeFor(c, s, marks, k)
  {
    hide SlotOf, RowOf, Signature, Stored, AckedAs, NotAhead, Current, RowsOf;
    if Live(c, s.log, k) && SlotOf(c, k) in marks && marks[SlotOf(c, k)] == Signature(Current(c, s.log, k)) {
      var n: nat :| NotAhead(c, s.log, s.table, k, n) && AckedAs(c, s.log, k, marks[SlotOf(c, k)], n);
      AckedCurrent(c, s.log, k, n);
      RowCaughtUp(c, s, k, n);
    }
  }

  // Only the whole of a history has the signature of the current value.
  lemma AckedCurrent(c: Client, log: seq<LogRow>, k: RawKey, n: nat)
    requires AckedAs(c, log, k, Signature(Current(c, log, k)), n)
    ensures n == |RowsOf(c.filter, log, k)|
  {
    hide Signature, RowsOf;
    SignatureInjective(Past(c, log, k, n), Current(c, log, k));
  }

  // A row that is not behind the whole of its history holds the current value.
  lemma RowCaughtUp(c: Client, s: Sys, k: RawKey, n: nat)
    requires RowOk(c, s.log, s.table, k) && Live(c, s.log, k) && RowOf(c, k) in s.table
    requires n == |RowsOf(c.filter, s.log, k)| && NotAhead(c, s.log, s.table, k, n)
    ensures s.table[RowOf(c, k)] == Stored(Current(c, s.log, k))
  {
    hide RowOf, Stored;
    assert RowsOf(c.filter, s.log, k)[..n] == RowsOf(c.filter, s.log, k);
  }

  lemma InvGivesSkipSafety(c: Client, s: Sys)
    requires Inv(c, s)
    ensures SkipSafe(c, s)
  {
    forall marks, k | Consulted(s, marks) ensures SkipSafeFor(c, s, marks, k) {
      assert MarksOk(c, s.log, s.table, marks);
      assert MarkOk(c, s.log, s.table, marks, k);
      assert RowOk(c, s.log, s.table, k);
      Sandwich(c, s, marks, k);
    }
  }

  /* ---------- steps that change the table ---------- */

  // A stored bucket comes from the one key that owns the row.
  lemma OwnerOfEntry(c: Client, log: seq<LogRow>, snap: seq<LogRow>, chunk: seq<Bucket>, k: RawKey, b: Bucket)
    requires Separate(c, log) && snap <= log && FromSnapshot(c, snap, chunk)
    requires Live(c, log, k) && b in chunk && !Blank(b.id.model) && RowKeyOf(c, b.id) == RowOf(c, k)
    ensures Live(c, snap, k) && b == BucketOf(c.filter, snap, k) && !Blank(k.model)
  {
    hide StateKey, RowKeyOf, Sorted, BucketsOf;
    BucketsContents(c.filter, snap);
    var l :| RowsOf(c.filter, snap, l) != [] && b == BucketOf(c.filter, snap, l);
    RowsOfPrefix(c.filter, snap, log, l);
    assert Live(c, log, l);
    assert l.model == b.id.model;
    assert !Clash(c, l, k);
  }

  // The chunk is not older than what the table holds.
  ghost predicate Fresh(c: Client, table: Table, chunk: seq<Bucket>) {
    forall b :: b in chunk && RowKeyOf(c, b.id) in table ==> table[RowKeyOf(c, b.id)].requests <= b.usage.requests
  }

  // What serving a chunk of an earlier snapshot does to the row of one key.
  lemma EntryChange(c: Client, log: seq<LogRow>, table: Table, snap: seq<LogRow>, chunk: seq<Bucket>, k: RawKey)
    requires Separate(c, log) && snap <= log && FromSnapshot(c, snap, chunk)
    requires RowOk(c, log, table, k) && Live(c, log, k)
    ensures
      var after := ServeChunk(c, table, chunk).1;
      && RowOk(c, log, after, k)
      && (RowOf(c, k) in table ==> RowOf(c, k) in after)
      && (At(after, RowOf(c, k)) == At(table, RowOf(c, k))
          || (Live(c, snap, k) && At(after, RowOf(c, k)) == Some(Stored(Current(c, snap, k)))
              && exists b :: b in chunk && RowKeyOf(c, b.id) == RowOf(c, k) && b == BucketOf(c.filter, snap, k)))
  {
    hide ServeChunk, StateKey, RowKeyOf, Trim, SlotOf;
    var after := ServeChunk(c, table, chunk).1;
    ServedEntries(c, table, chunk, RowOf(c, k));
    if At(after, RowOf(c, k)) != At(table, RowOf(c, k)) {
      var b :| b in chunk && !Blank(b.id.model) && RowKeyOf(c, b.id) == RowOf(c, k)
               && At(after, RowOf(c, k)) == Some(Stored(b.usage));
      OwnerOfEntry(c, log, snap, chunk, k, b);
      RowsOfPrefix(c.filter, snap, log, k);
      var rows, seen := RowsOf(c.filter, log, k), RowsOf(c.filter, snap, k);
      assert rows[..|seen|] == seen;
      assert after[RowOf(c, k)] == Stored(Past(c, log, k, |seen|));
    }
  }

  // A fresh chunk moves it only forward.
  lemma EntryStep(c: Client, log: seq<LogRow>, table: Table, snap: seq<LogRow>, chunk: seq<Bucket>, k: RawKey)
    requires Separate(c, log) && snap <= log && FromSnapshot(c, snap, chunk) && Fresh(c, table, chunk)
    requires RowOk(c, log, table, k) && Live(c, log, k)
    ensures
      var after := ServeChunk(c, table, chunk).1;
      && RowOk(c, log, after, k)
      && (RowOf(c, k) in table ==> RowOf(c, k) in after && table[RowOf(c, k)].requests <= after[RowOf(c, k)].requests)
      && (At(after, RowOf(c, k)) == At(table, RowOf(c, k))
          || (Live(c, snap, k) && At(after, RowOf(c, k)) == Some(Stored(Current(c, snap, k)))))
  {
    hide ServeChunk, RowOf, RowKeyOf, RowOk, Live, FromSnapshot, Separate;
    EntryChange(c, log, table, snap, chunk, k);
  }

  lemma MarkOkStep(c: Client, log: seq<LogRow>, table: Table, after: Table, marks: Marks, k: RawKey)
    requires MarkOk(c, log, table, marks, k)
    requires Live(c, log, k) && RowOf(c, k) in table ==>
               RowOf(c, k) in after && table[RowOf(c, k)].requests <= after[RowOf(c, k)].requests
    ensures MarkOk(c, log, after, marks, k)
  {
    hide SlotOf, RowOf, AckedAs;
  }

  // A table that moved only forward keeps every claim about acknowledged values.
  lemma MarksOkStep(c: Client, log: seq<LogRow>, table: Table, after: Table, marks: Marks)
    requires MarksOk(c, log, table, marks)
    requires forall k :: Forward(c, log, table, after, k)
    ensures MarksOk(c, log, after, marks)
  {
    hide SlotOf, RowOf, MarkOk;
    forall k ensures MarkOk(c, log, after, marks, k) {
      assert Forward(c, log, table, after, k);
      MarkOkStep(c, log, table, after, marks, k);
    }
  }

  ghost predicate Forward(c: Client, log: seq<LogRow>, table: Table, after: Table, k: RawKey) {
    Live(c, log, k) && RowOf(c, k) in table ==>
      RowOf(c, k) in after && table[RowOf(c, k)].requests <= after[RowOf(c, k)].requests
  }

  // Everything the invariant says about the table survives a fresh chunk.
  lemma TableStep(c: Client, s: Sys, snap: seq<LogRow>, chunk: seq<Bucket>)
    requires Inv(c, s) && Separate(c, s.log)
    requires snap <= s.log && FromSnapshot(c, snap, chunk) && Fresh(c, s.table, chunk)
    ensures
      var after := ServeChunk(c, s.table, chunk).1;
      && (forall k :: RowOk(c, s.log, after, k))
      && (forall k :: Forward(c, s.log, s.table, after, k))
      && NoForeignRows(c, s.(table := after))
  {
    hide ServeChunk, RowOf, SlotOf, RowKeyOf, MarksOk, RunOk, StrayOk, Fresh, FromSnapshot;
    var after := ServeChunk(c, s.table, chunk).1;
    forall k ensures RowOk(c, s.log, after, k) {
      assert RowOk(c, s.log, s.table, k);
      if Live(c, s.log, k) {
        EntryStep(c, s.log, s.table, snap, chunk, k);
      }
    }
    forall k ensures Forward(c, s.log, s.table, after, k) {
      assert RowOk(c, s.log, s.table, k);
      if Live(c, s.log, k) {
        EntryStep(c, s.log, s.table, snap, chunk, k);
      }
    }
    forall rk | rk in after ensures RowInUse(c, s.log, rk) {
      NewRowInUse(c, s, snap, chunk, rk);
    }
  }

  lemma NewRowInUse(c: Client, s: Sys, snap: seq<LogRow>, chunk: seq<Bucket>, rk: RowKey)
    requires NoForeignRows(c, s) && snap <= s.log && FromSnapshot(c, snap, chunk)
    requires rk in ServeChunk(c, s.table, chunk).1
    ensures RowInUse(c, s.log, rk)
  {
    hide ServeChunk, RowKeyOf, Sorted, BucketsOf;
    ServedEntries(c, s.table, chunk, rk);
    if rk !in s.table {
      var after := ServeChunk(c, s.table, chunk).1;
      var b :| b in chunk && !Blank(b.id.model) && RowKeyOf(c, b.id) == rk && At(after, rk) == Some(Stored(b.usage));
      BucketsContents(c.filter, snap);
      var l :| RowsOf(c.filter, snap, l) != [] && b == BucketOf(c.filter, snap, l);
      RowsOfPrefix(c.filter, snap, s.log, l);
      assert Live(c, s.log, l) && RowOf(c, l) == rk;
    }
  }

  /* ---------- the log grows ---------- */

  lemma PastStable(c: Client, log: seq<LogRow>, more: seq<LogRow>, k: RawKey, n: nat)
    requires log <= more && n <= |RowsOf(c.filter, log, k)|
    ensures n <= |RowsOf(c.filter, more, k)| && Past(c, more, k, n) == Past(c, log, k, n)
  {
    RowsOfPrefix(c.filter, log, more, k);
    assert RowsOf(c.filter, more, k)[..n] == RowsOf(c.filter, log, k)[..n];
  }

  // A key the log meets for the first time has neither a row nor a slot yet.
  lemma NewKeyIsUnused(c: Client, log: seq<LogRow>, more: seq<LogRow>, k: RawKey)
    requires log <= more && Separate(c, more)
    requires Live(c, more, k) && !Live(c, log, k)
    ensures forall l ::
              Live(c, log, l) && !Blank(l.model) ==> SlotOf(c, l) != SlotOf(c, k) && RowOf(c, l) != RowOf(c, k)
  {
    hide SlotOf, RowOf;
    forall l | Live(c, log, l) && !Blank(l.model)
      ensures SlotOf(c, l) != SlotOf(c, k) && RowOf(c, l) != RowOf(c, k)
    {
      RowsOfPrefix(c.filter, log, more, l);
      assert Live(c, more, l) && !Clash(c, l, k);
    }
  }

  lemma AppendKeepsRow(c: Client, s: Sys, more: seq<LogRow>, k: RawKey)
    requires s.log <= more && Separate(c, more)
    requires forall l :: RowOk(c, s.log, s.table, l)
    requires NoForeignRows(c, s)
    ensures RowOk(c, more, s.table, k)
  {
    hide SlotOf, RowOf;
    if Live(c, more, k) && RowOf(c, k) in s.table {
      if Live(c, s.log, k) {
        assert RowOk(c, s.log, s.table, k);
        PastStable(c, s.log, more, k, s.table[RowOf(c, k)].requests);
      } else {
        assert RowInUse(c, s.log, RowOf(c, k));
        var l :| Live(c, s.log, l) && RowOf(c, l) == RowOf(c, k);
        assert RowOk(c, s.log, s.table, l);
        NewKeyIsUnused(c, s.log, more, k);
      }
    }
  }

  lemma AppendKeepsMark(c: Client, s: Sys, more: seq<LogRow>, marks: Marks, k: RawKey)
    requires s.log <= more && Separate(c, more)
    requires MarksOk(c, s.log, s.table, marks)
    ensures MarkOk(c, more, s.table, marks, k)
  {
    hide SlotOf, RowOf, Signature;
    if Live(c, more, k) && SlotOf(c, k) in marks {
      if Live(c, s.log, k) {
        assert MarkOk(c, s.log, s.table, marks, k);
        var n: nat :| NotAhead(c, s.log, s.table, k, n) && AckedAs(c, s.log, k, marks[SlotOf(c, k)], n);
        PastStable(c, s.log, more, k, n);
        RowsOfPrefix(c.filter, s.log, more, k);
        assert NotAhead(c, more, s.table, k, n);
        assert AckedAs(c, more, k, marks[SlotOf(c, k)], n);
      } else {
        assert SlotInUse(c, s.log, SlotOf(c, k));
        var l :| Live(c, s.log, l) && !Blank(l.model) && SlotOf(c, l) == SlotOf(c, k);
        NewKeyIsUnused(c, s.log, more, k);
      }
    }
  }

  lemma AppendKeepsMarks(c: Client, s: Sys, more: seq<LogRow>, marks: Marks)
    requires s.log <= more && Separate(c, more)
    requires MarksOk(c, s.log, s.table, marks)
    ensures MarksOk(c, more, s.table, marks)
  {
    hide SlotOf, RowOf, MarkOk;
    forall k ensures MarkOk(c, more, s.table, marks, k) {
      AppendKeepsMark(c, s, more, marks, k);
    }
    forall slot | slot in marks ensures SlotInUse(c, more, slot) {
      assert SlotInUse(c, s.log, slot);
      var k :| Live(c, s.log, k) && !Blank(k.model) && SlotOf(c, k) == slot;
      RowsOfPrefix(c.filter, s.log, more, k);
      assert Live(c, more, k);
    }
  }

  lemma AppendKeepsBound(c: Client, s: Sys, t: Sys, snap: seq<LogRow>, k: RawKey)
    requires t == s.(log := t.log) && s.log <= t.log && Separate(c, t.log)
    requires forall l :: RowOk(c, s.log, s.table, l)
    requires NoForeignRows(c, s) && BoundOk(c, s, snap, k)
    ensures BoundOk(c, t, snap, k)
  {
    hide SlotOf, RowOf;
    if Live(c, t.log, k) && RowOf(c, k) in t.table && !Live(c, s.log, k) {
      assert RowInUse(c, s.log, RowOf(c, k));
      var l :| Live(c, s.log, l) && RowOf(c, l) == RowOf(c, k);
      assert RowOk(c, s.log, s.table, l);
      NewKeyIsUnused(c, s.log, t.log, k);
    }
  }

  lemma AppendKeepsAcked(c: Client, s: Sys, more: seq<LogRow>, snap: seq<LogRow>, b: Bucket)
    requires snap <= s.log <= more && AckedOk(c, s.log, s.table, snap, b)
    ensures AckedOk(c, more, s.table, snap, b)
  {
    hide RowKeyOf, Stored, Blank, Live;
    forall k | Live(c, snap, k) && b == BucketOf(c.filter, snap, k) && SameRows(c, snap, more, k)
      ensures SameRows(c, snap, s.log, k)
    {
      RowsOfPrefix(c.filter, snap, s.log, k);
      RowsOfPrefix(c.filter, s.log, more, k);
    }
  }

  lemma AppendKeepsInv(c: Client, s: Sys, row: LogRow)
    requires Inv(c, s) && Separate(c, s.log + [row])
    ensures Inv(c, s.(log := s.log + [row]))
  {
    hide SlotOf, RowOf, RowOk, MarkOk, MarksOk, StateKey, RowKeyOf, BoundOk, FromSnapshot, AckedOk;
    var t := s.(log := s.log + [row]);
    forall k ensures RowOk(c, t.log, t.table, k) {
      AppendKeepsRow(c, s, t.log, k);
    }
    forall marks | MarksOk(c, s.log, s.table, marks) ensures MarksOk(c, t.log, t.table, marks) {
      AppendKeepsMarks(c, s, t.log, marks);
    }
    if s.run.Sending? {
      forall k ensures BoundOk(c, t, t.run.snap, k) {
        assert BoundOk(c, s, s.run.snap, k);
        AppendKeepsBound(c, s, t, s.run.snap, k);
      }
      if s.run.stage == Acked {
        forall b | b in Chunk(c, s.run.pending, s.run.done) ensures AckedOk(c, t.log, t.table, s.run.snap, b) {
          AppendKeepsAcked(c, s, t.log, s.run.snap, b);
        }
      }
    }
    forall rk | rk in t.table ensures RowInUse(c, t.log, rk) {
      assert RowInUse(c, s.log, rk);
      var k :| Live(c, s.log, k) && RowOf(c, k) == rk;
      RowsOfPrefix(c.filter, s.log, t.log, k);
      assert Live(c, t.log, k);
    }
  }

  /* ---------- reading, sending, delivering ---------- */

  lemma ReadKeepsInv(c: Client, s: Sys)
    requires Inv(c, s) && Next(c, s, Read).Some?
    ensures Inv(c, Next(c, s, Read).value)
  {
    hide SlotOf, RowOf, MarkOk, MarksOk, StateKey, RowKeyOf, Signature, IsMarked, Buckets, Stored;
    var t := Next(c, s, Read).value;
    forall k ensures BoundOk(c, t, s.log, k) {
      assert RowOk(c, s.log, s.table, k);
    }
  }

  // The chunk of a running sender is never older than the table.
  lemma SenderIsFresh(c: Client, s: Sys)
    requires Inv(c, s) && Separate(c, s.log) && s.run.Sending?
    ensures Fresh(c, s.table, Chunk(c, s.run.pending, s.run.done))
  {
    hide StateKey, RowKeyOf, Sorted, BucketsOf, RowOk, MarksOk, Stored;
    var chunk := Chunk(c, s.run.pending, s.run.done);
    BucketsContents(c.filter, s.run.snap);
    forall b | b in chunk && RowKeyOf(c, b.id) in s.table
      ensures s.table[RowKeyOf(c, b.id)].requests <= b.usage.requests
    {
      assert b in Buckets(c.filter, s.run.snap);
      var k :| RowsOf(c.filter, s.run.snap, k) != [] && b == BucketOf(c.filter, s.run.snap, k);
      RowsOfPrefix(c.filter, s.run.snap, s.log, k);
      assert Live(c, s.log, k) && RowOf(c, k) == RowKeyOf(c, b.id);
      assert BoundOk(c, s, s.run.snap, k);
    }
  }

  // Counts never pass the newest snapshot that was read.
  lemma BoundStep(c: Client, s: Sys, snap: seq<LogRow>, chunk: seq<Bucket>, bound: seq<LogRow>, k: RawKey)
    requires Separate(c, s.log) && snap <= bound <= s.log && FromSnapshot(c, snap, chunk) && Fresh(c, s.table, chunk)
    requires RowOk(c, s.log, s.table, k) && BoundOk(c, s, bound, k)
    ensures BoundOk(c, s.(table := ServeChunk(c, s.table, chunk).1), bound, k)
  {
    hide ServeChunk, RowOf, RowOk, FromSnapshot, Fresh;
    if Live(c, s.log, k) {
      EntryStep(c, s.log, s.table, snap, chunk, k);
      RowsOfPrefix(c.filter, snap, bound, k);
    }
  }

  // A row that already holds the newest value keeps it.
  lemma AckedStep(c: Client, s: Sys, snap: seq<LogRow>, chunk: seq<Bucket>, bound: seq<LogRow>, b: Bucket)
    requires Separate(c, s.log) && snap <= bound <= s.log && FromSnapshot(c, snap, chunk) && Fresh(c, s.table, chunk)
    requires forall k :: RowOk(c, s.log, s.table, k)
    requires b in Buckets(c.filter, bound) && AckedOk(c, s.log, s.table, bound, b)
    ensures AckedOk(c, s.log, ServeChunk(c, s.table, chunk).1, bound, b)
  {
    hide ServeChunk, RowKeyOf, RowOk, FromSnapshot, Fresh, StateKey, Sorted, BucketsOf, Stored, RowsOf, Separate;
    BucketsContents(c.filter, bound);
    var k :| RowsOf(c.filter, bound, k) != [] && b == BucketOf(c.filter, bound, k);
    AckedStepAt(c, s, snap, chunk, bound, b, k);
    forall k | Live(c, bound, k) && b == BucketOf(c.filter, bound, k) && SameRows(c, bound, s.log, k)
      ensures At(ServeChunk(c, s.table, chunk).1, RowKeyOf(c, b.id)) == Some(Stored(b.usage))
    {
      AckedStepAt(c, s, snap, chunk, bound, b, k);
    }
  }

  lemma AckedStepAt(c: Client, s: Sys, snap: seq<LogRow>, chunk: seq<Bucket>, bound: seq<LogRow>, b: Bucket, k: RawKey)
    requires Separate(c, s.log) && snap <= bound <= s.log && FromSnapshot(c, snap, chunk) && Fresh(c, s.table, chunk)
    requires RowOk(c, s.log, s.table, k) && AckedOk(c, s.log, s.table, bound, b)
    requires Live(c, bound, k) && b == BucketOf(c.filter, bound, k)
    ensures RowKeyOf(c, b.id) in ServeChunk(c, s.table, chunk).1
    ensures SameRows(c, bound, s.log, k)
        ==> At(ServeChunk(c, s.table, chunk).1, RowKeyOf(c, b.id)) == Some(Stored(b.usage))
  {
    hide ServeChunk, RowKeyOf, RowOk, FromSnapshot, Fresh, StateKey, Stored, Separate;
    RowsOfPrefix(c.filter, bound, s.log, k);
    assert Live(c, s.log, k) && RowOf(c, k) == RowKeyOf(c, b.id);
    EntryStep(c, s.log, s.table, snap, chunk, k);
    RowsOfPrefix(c.filter, snap, bound, k);
    KeptOrSame(c, s, snap, chunk, bound, b, k);
  }

  lemma KeptOrSame(c: Client, s: Sys, snap: seq<LogRow>, chunk: seq<Bucket>, bound: seq<LogRow>, b: Bucket, k: RawKey)
    requires RowKeyOf(c, b.id) == RowOf(c, k) && AckedOk(c, s.log, s.table, bound, b)
    requires Live(c, bound, k) && b == BucketOf(c.filter, bound, k)
        && RowsOf(c.filter, snap, k) <= RowsOf(c.filter, bound, k)
    requires
      var after := ServeChunk(c, s.table, chunk).1;
      && RowOf(c, k) in after && s.table[RowOf(c, k)].requests <= after[RowOf(c, k)].requests
      && (At(after, RowOf(c, k)) == At(s.table, RowOf(c, k))
          || (Live(c, snap, k) && At(after, RowOf(c, k)) == Some(Stored(Current(c, snap, k)))))
    ensures SameRows(c, bound, s.log, k)
        ==> At(ServeChunk(c, s.table, chunk).1, RowKeyOf(c, b.id)) == Some(Stored(b.usage))
  {
    hide ServeChunk, RowOf, RowKeyOf, Blank;
    if |RowsOf(c.filter, snap, k)| == |RowsOf(c.filter, bound, k)| {
      assert RowsOf(c.filter, snap, k) == RowsOf(c.filter, bound, k);
    }
  }

  // A delivery that is not older than the table keeps the invariant.
  lemma DeliveryKeepsInv(c: Client, s: Sys, snap: seq<LogRow>, chunk: seq<Bucket>)
    requires Inv(c, s) && Separate(c, s.log)
    requires snap <= s.log && FromSnapshot(c, snap, chunk) && Fresh(c, s.table, chunk)
    requires s.run.Sending? ==> snap <= s.run.snap
    ensures Inv(c, s.(table := ServeChunk(c, s.table, chunk).1))
  {
    hide ServeChunk, SlotOf, RowOf, RowOk, MarkOk, MarksOk, StateKey, RowKeyOf, BoundOk, Fresh, Stored, AckedOk;
    TableStep(c, s, snap, chunk);
    var t := s.(table := ServeChunk(c, s.table, chunk).1);
    forall marks | MarksOk(c, s.log, s.table, marks) ensures MarksOk(c, t.log, t.table, marks) {
      MarksOkStep(c, s.log, s.table, t.table, marks);
    }
    if s.run.Sending? {
      forall k ensures BoundOk(c, t, s.run.snap, k) {
        assert BoundOk(c, s, s.run.snap, k) && RowOk(c, s.log, s.table, k);
        BoundStep(c, s, snap, chunk, s.run.snap, k);
      }
      if s.run.stage == Acked {
        forall b | b in Chunk(c, s.run.pending, s.run.done) ensures AckedOk(c, t.log, t.table, s.run.snap, b) {
          assert b in Buckets(c.filter, s.run.snap);
          AckedStep(c, s, snap, chunk, s.run.snap, b);
        }
      }
    }
  }

  lemma RespondKeepsInv(c: Client, s: Sys, lost: bool)
    requires Inv(c, s) && Separate(c, s.log) && Next(c, s, Respond(lost)).Some?
    ensures Inv(c, Next(c, s, Respond(lost)).value)
  {
    hide ServeChunk, RowOk, MarksOk, StateKey, RowKeyOf, BoundOk, Fresh, Stored, FromSnapshot, RowInUse;
    var chunk := Chunk(c, s.run.pending, s.run.done);
    SenderIsFresh(c, s);
    assert FromSnapshot(c, s.run.snap, chunk) by {
      ChunkFromSnapshot(c, s.run.snap, s.run.pending, s.run.done);
    }
    DeliveryKeepsInv(c, s, s.run.snap, chunk);
    var t := s.(table := ServeChunk(c, s.table, chunk).1);
    assert Inv(c, t);
    var u := AfterResponse(c, s, chunk, lost);
    if u.run.Sending? {
      forall b | b in chunk ensures AckedOk(c, t.log, t.table, s.run.snap, b) {
        AcceptedEntries(c, s.table, chunk, b);
      }
      BoundsOfRun(c, t, u);
    }
  }

  lemma BoundsOfRun(c: Client, s: Sys, t: Sys)
    requires t.log == s.log && t.table == s.table
    ensures forall snap, k :: BoundOk(c, s, snap, k) ==> BoundOk(c, t, snap, k)
  {
  }

  lemma ChunkFromSnapshot(c: Client, snap: seq<LogRow>, pending: seq<Bucket>, done: nat)
    requires FromSnapshot(c, snap, pending) && done <= |pending|
    ensures FromSnapshot(c, snap, Chunk(c, pending, done))
  {
    hide Buckets;
  }

  /* ---------- marking and saving ---------- */

  // Two buckets of the same log that share a slot are the same bucket, if one of them is stored.
  lemma SlotOwner(c: Client, log: seq<LogRow>, snap: seq<LogRow>, b: Bucket, k: RawKey)
    requires Separate(c, log) && snap <= log
    requires b in Buckets(c.filter, snap) && Live(c, log, k)
    requires StateKey(c.source, b.id) == SlotOf(c, k)
    requires !Blank(b.id.model) || !Blank(k.model)
    ensures Live(c, snap, k) && b == BucketOf(c.filter, snap, k)
  {
    hide StateKey, RowKeyOf, Sorted, BucketsOf;
    BucketsContents(c.filter, snap);
    var l :| RowsOf(c.filter, snap, l) != [] && b == BucketOf(c.filter, snap, l);
    RowsOfPrefix(c.filter, snap, log, l);
    assert Live(c, log, l) && l.model == b.id.model;
    assert !Clash(c, l, k);
  }

  lemma MarkKeepsMark(c: Client, log: seq<LogRow>, table: Table, mem: Marks, snap: seq<LogRow>,
                      chunk: seq<Bucket>, k: RawKey)
    requires Separate(c, log) && snap <= log && FromSnapshot(c, snap, chunk)
    requires MarkOk(c, log, table, mem, k)
    requires forall b :: b in chunk ==> AckedOk(c, log, table, snap, b)
    requires forall b :: b in chunk ==> StateKey(c.source, b.id) in SignatureMap(c, Buckets(c.filter, snap))
    ensures MarkOk(c, log, table, MarkAll(c, mem, chunk, SignatureMap(c, Buckets(c.filter, snap))), k)
  {
    hide StateKey, RowKeyOf, Buckets, Signature, Stored, MarkAll, SignatureMap;
    var slot, sigs := SlotOf(c, k), SignatureMap(c, Buckets(c.filter, snap));
    MarkAllAt(c, mem, chunk, sigs, slot);
    if Live(c, log, k) && exists b :: b in chunk && StateKey(c.source, b.id) == slot {
      var b :| b in chunk && StateKey(c.source, b.id) == slot;
      SlotOwner(c, log, snap, b, k);
      SignatureOfOwner(c, log, snap, b, k);
      FreshMark(c, log, table, snap, b, k, MarkAll(c, mem, chunk, sigs));
    }
  }

  lemma FreshMark(c: Client, log: seq<LogRow>, table: Table, snap: seq<LogRow>, b: Bucket, k: RawKey, marks: Marks)
    requires snap <= log && Live(c, snap, k) && b == BucketOf(c.filter, snap, k)
    requires AckedOk(c, log, table, snap, b)
    requires SlotOf(c, k) in marks && marks[SlotOf(c, k)] == Signature(b.usage)
    ensures MarkOk(c, log, table, marks, k)
  {
    hide SlotOf, RowKeyOf, Signature;
    RowsOfPrefix(c.filter, snap, log, k);
    var n := |RowsOf(c.filter, snap, k)|;
    assert RowsOf(c.filter, log, k)[..n] == RowsOf(c.filter, snap, k);
    assert AckedAs(c, log, k, marks[SlotOf(c, k)], n);
    assert RowOf(c, k) == RowKeyOf(c, b.id);
    assert n == |RowsOf(c.filter, log, k)| ==> SameRows(c, snap, log, k);
    assert NotAhead(c, log, table, k, n);
  }

  lemma SignatureOfOwner(c: Client, log: seq<LogRow>, snap: seq<LogRow>, b: Bucket, k: RawKey)
    requires Separate(c, log) && snap <= log
    requires b in Buckets(c.filter, snap) && Live(c, log, k) && !Blank(k.model)
    requires b == BucketOf(c.filter, snap, k) && StateKey(c.source, b.id) == SlotOf(c, k)
    ensures SignatureMap(c, Buckets(c.filter, snap))[SlotOf(c, k)] == Signature(b.usage)
  {
    hide StateKey, RowKeyOf, Buckets, Signature, SignatureMap;
    forall o | o in Buckets(c.filter, snap) && o != b ensures StateKey(c.source, o.id) != StateKey(c.source, b.id) {
      if StateKey(c.source, o.id) == StateKey(c.source, b.id) {
        SlotOwner(c, log, snap, o, k);
      }
    }
    SignatureMapAt(c, Buckets(c.filter, snap), b);
  }

  lemma MarkKeepsInv(c: Client, s: Sys)
    requires Inv(c, s) && Separate(c, s.log) && Next(c, s, Mark).Some?
    ensures Inv(c, Next(c, s, Mark).value)
  {
    hide StateKey, RowKeyOf, Buckets, Signature, Stored, MarkAll, SignatureMap, RowOk, MarksOk, BoundOk, RowInUse,
         StrayOk, FromSnapshot, Separate;
    var t := Next(c, s, Mark).value;
    MarkKeepsMarks(c, s);
    BoundsOfRun(c, s, t);
  }

  lemma MarkKeepsMarks(c: Client, s: Sys)
    requires Inv(c, s) && Separate(c, s.log) && Next(c, s, Mark).Some?
    ensures MarksOk(c, s.log, s.table, Next(c, s, Mark).value.run.mem)
  {
    hide Inv, Next, MarkOk, SlotInUse;
    MarkKeepsMem(c, s);
    MarkKeepsSlots(c, s);
  }

  lemma MarkKeepsMem(c: Client, s: Sys)
    requires Inv(c, s) && Separate(c, s.log) && Next(c, s, Mark).Some?
    ensures forall k :: MarkOk(c, s.log, s.table, Next(c, s, Mark).value.run.mem, k)
  {
    hide StateKey, RowKeyOf, Buckets, Signature, Stored, MarkAll, SignatureMap, RowOk, MarkOk, BoundOk, RowInUse,
        Separate;
    var chunk := Chunk(c, s.run.pending, s.run.done);
    ChunkFromSnapshot(c, s.run.snap, s.run.pending, s.run.done);
    forall k ensures MarkOk(c, s.log, s.table, Next(c, s, Mark).value.run.mem, k) {
      assert MarkOk(c, s.log, s.table, s.run.mem, k);
      MarkKeepsMark(c, s.log, s.table, s.run.mem, s.run.snap, chunk, k);
    }
  }

  lemma MarkKeepsSlots(c: Client, s: Sys)
    requires Inv(c, s) && Next(c, s, Mark).Some?
    ensures forall slot :: slot in Next(c, s, Mark).value.run.mem ==> SlotInUse(c, s.log, slot)
  {
    hide StateKey, RowKeyOf, Buckets, Signature, Stored, MarkAll, SignatureMap, RowOk, MarkOk, BoundOk, RowInUse;
    var mem := Next(c, s, Mark).value.run.mem;
    var chunk := Chunk(c, s.run.pending, s.run.done);
    ChunkFromSnapshot(c, s.run.snap, s.run.pending, s.run.done);
    forall slot | slot in mem ensures SlotInUse(c, s.log, slot) {
      MarkAllAt(c, s.run.mem, chunk, SignatureMap(c, Buckets(c.filter, s.run.snap)), slot);
      if slot !in s.run.mem {
        var b :| b in chunk && StateKey(c.source, b.id) == slot;
        assert b in Buckets(c.filter, s.run.snap);
        BucketSlotInUse(c, s.log, s.run.snap, b);
      }
    }
  }

  lemma BucketSlotInUse(c: Client, log: seq<LogRow>, snap: seq<LogRow>, b: Bucket)
    requires snap <= log && b in Buckets(c.filter, snap) && !Blank(b.id.model)
    ensures SlotInUse(c, log, StateKey(c.source, b.id))
  {
    hide StateKey, Sorted, BucketsOf;
    BucketsContents(c.filter, snap);
    var l :| RowsOf(c.filter, snap, l) != [] && b == BucketOf(c.filter, snap, l);
    RowsOfPrefix(c.filter, snap, log, l);
    assert Live(c, log, l) && SlotOf(c, l) == StateKey(c.source, b.id);
  }

  lemma SaveKeepsInv(c: Client, s: Sys, e: Event)
    requires Inv(c, s) && e in {Save, Finish} && Next(c, s, e).Some?
    ensures Inv(c, Next(c, s, e).value)
  {
    hide StateKey, RowKeyOf, Buckets, Stored, RowOk, MarksOk, BoundOk, RowInUse, FromSnapshot;
    BoundsOfRun(c, s, Next(c, s, e).value);
  }

  /* ---------- every run ---------- */

  lemma StepKeepsInv(c: Client, s: Sys, e: Event)
    requires Inv(c, s) && Next(c, s, e).Some? && OnTime(c, s, e)
    requires Separate(c, Next(c, s, e).value.log)
    ensures Inv(c, Next(c, s, e).value)
  {
    match e
    case Append(row) => AppendKeepsInv(c, s, row);
    case Read => ReadKeepsInv(c, s);
    case Respond(lost) => RespondKeepsInv(c, s, lost);
    case Mark => MarkKeepsInv(c, s);
    case Save => SaveKeepsInv(c, s, e);
    case Finish => SaveKeepsInv(c, s, e);
    case Deliver(i) =>
      StrayIsFresh(c, s, i);
      DeliveryKeepsInv(c, s, s.strays[i].snap, s.strays[i].chunk);
    case GiveUp => GiveUpKeepsInv(c, s);
    case _ => QuietStepKeepsInv(c, s, e);
  }

  lemma StrayIsFresh(c: Client, s: Sys, i: nat)
    requires Inv(c, s) && i < |s.strays| && OnTime(c, s, Deliver(i))
    ensures Fresh(c, s.table, s.strays[i].chunk)
    ensures s.strays[i].snap <= s.log && FromSnapshot(c, s.strays[i].snap, s.strays[i].chunk)
    ensures s.run.Sending? ==> s.strays[i].snap <= s.run.snap
  {
    hide RowKeyOf, RowOk, MarksOk, Buckets;
    assert StrayOk(c, s.log, s.strays[i]);
  }

  lemma GiveUpKeepsInv(c: Client, s: Sys)
    requires Inv(c, s) && Next(c, s, GiveUp).Some?
    ensures Inv(c, Next(c, s, GiveUp).value)
  {
    hide RowOk, MarksOk, RowInUse, FromSnapshot;
    ChunkFromSnapshot(c, s.run.snap, s.run.pending, s.run.done);
  }

  lemma QuietStepKeepsInv(c: Client, s: Sys, e: Event)
    requires Inv(c, s) && Next(c, s, e).Some?
    requires e.Begin? || e.Send? || e.Crash? || e.Lose?
    ensures Inv(c, Next(c, s, e).value)
  {
    hide RowOk, MarksOk, RowInUse, FromSnapshot, BoundOk;
    BoundsOfRun(c, s, Next(c, s, e).value);
  }

  lemma SeparatePrefix(c: Client, log: seq<LogRow>, more: seq<LogRow>)
    requires log <= more && Separate(c, more)
    ensures Separate(c, log)
  {
    hide Clash;
    forall k, l | Live(c, log, k) && Live(c, log, l) ensures !Clash(c, k, l) {
      RowsOfPrefix(c.filter, log, more, k);
      RowsOfPrefix(c.filter, log, more, l);
      assert Live(c, more, k) && Live(c, more, l);
    }
  }

  lemma StepGrows(c: Client, s: Sys, e: Event)
    requires Next(c, s, e).Some?
    ensures s.log <= Next(c, s, e).value.log && s.saved <= Next(c, s, e).value.saved
  {
    hide ServeChunk, MarkAll, SignatureMap, Buckets, Pending, StateKey;
  }

  lemma {:induction false} ExecKeepsInv(c: Client, s: Sys, events: seq<Event>)
    requires Inv(c, s) && Exec(c, s, events).Some? && AllOnTime(c, s, events)
    requires Separate(c, Exec(c, s, events).value.log)
    ensures Inv(c, Exec(c, s, events).value)
    ensures s.log <= Exec(c, s, events).value.log && s.saved <= Exec(c, s, events).value.saved
  {
    hide Inv, Next, OnTime, Separate;
    if events != [] {
      var front, last := events[..|events| - 1], events[|events| - 1];
      var before := Exec(c, s, front).value;
      StepGrows(c, before, last);
      SeparatePrefix(c, before.log, Exec(c, s, events).value.log);
      ExecKeepsInv(c, s, front);
      StepKeepsInv(c, before, last);
    }
  }

  lemma StartInv(c: Client)
    ensures Inv(c, START)
  {
  }
}
