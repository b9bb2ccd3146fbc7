// Where skip safety ends: bucket keys the protocol cannot tell apart, and requests that reach
// the server after a newer one. Each failing family is shown with a run, for every client.
module Exactness {
  import opened Options
  import opened Text
  import opened UsageLog
  import opened Sidecar
  import opened Client
  import opened Protocol
  import opened LateDelivery

  /* ---------- running event lists ---------- */

  lemma {:induction false} ExecConcat(c: Client, s: Sys, a: seq<Event>, b: seq<Event>)
    ensures Exec(c, s, a + b) == if Exec(c, s, a).Some? then Exec(c, Exec(c, s, a).value, b) else None
  {
    hide Next;
    if b == [] {
      assert a + b == a;
    } else {
      ExecConcat(c, s, a, b[..|b| - 1]);
      assert (a + b)[..|a + b| - 1] == a + b[..|b| - 1];
    }
  }

  lemma ExecOne(c: Client, s: Sys, e: Event)
    ensures Exec(c, s, [e]) == Next(c, s, e)
  {
    hide Next;
    assert [e][..0] == [];
    assert Exec(c, s, [e][..0]) == Some(s);
  }

  lemma ExecThen(c: Client, s: Sys, a: seq<Event>, t: Sys, e: Event)
    requires Exec(c, s, a) == Some(t)
    ensures Exec(c, s, a + [e]) == Next(c, t, e)
  {
    hide Next;
    ExecConcat(c, s, a, [e]);
    ExecOne(c, t, e);
  }

  lemma {:induction false} NoDeliveryIsOnTime(c: Client, s: Sys, events: seq<Event>)
    requires forall e :: e in events ==> !e.Deliver?
    ensures AllOnTime(c, s, events)
  {
    hide Next;
    if events != [] {
      NoDeliveryIsOnTime(c, s, events[..|events| - 1]);
    }
  }

  /* ---------- a run that sends one bucket ---------- */

  // The sidecar accepts this client's reports.
  predicate Serves(c: Client) {
    c.user.Some? && SourceAllowed(c.config, EffectiveSource(c.source)) && c.config.maxItems >= 1 && c.batchSize >= 1
  }

  predicate BucketFits(b: Bucket) {
    ValidBucket(b) && FitsColumns(Stored(b.usage))
  }

  lemma OneBucketAccepted(c: Client, table: Table, b: Bucket)
    requires Serves(c) && BucketFits(b)
    ensures FullyAccepted(ServeChunk(c, table, [b]).0, 1)
    ensures ServeChunk(c, table, [b]).1 == table[RowKeyOf(c, b.id) := Stored(b.usage)]
  {
    hide Trim, KeyFor, Stored, SourceAllowed, Normalize, EffectiveSource, FitsColumns;
    var r := Payload(c, [b]);
    assert r.items == [ToItem(b)];
    assert AllAcceptable(r.items);
    FullyAcceptedExactly(c.config, table, r);
    NormalizedRowsOfAcceptable(UserOf(c), EffectiveSource(c.source), r.items);
    KeyIgnoresUsage(c, b);
    var rows := RowsFor(UserOf(c), EffectiveSource(c.source), r.items);
    assert rows == [UsageRow(RowKeyOf(c, b.id), Stored(b.usage))];
    assert rows[..0] == [];
    assert Overwrite(table, rows[..0]) == table;
    AllOrNothing(c.config, table, r);
  }

  function UpToResponse(early: Marks): seq<Event> {
    [Begin(early)] + [Read] + [Send] + [Respond(false)]
  }

  function WholeRun(early: Marks): seq<Event> {
    UpToResponse(early) + [Mark] + [Save] + [Finish]
  }

  lemma SingleSend(c: Client, s: Sys, early: Marks, b: Bucket)
    requires Serves(c) && BucketFits(b) && s.run == NoRun && early in s.saved
    requires Pending(c, Buckets(c.filter, s.log), LoadMarks(s.disk, early)) == [b]
    ensures Exec(c, s, UpToResponse(early))
         == Some(s.(table := s.table[RowKeyOf(c, b.id) := Stored(b.usage)],
                    run := Sending(LoadMarks(s.disk, early), s.log, [b], 0, Acked)))
  {
    hide RowKeyOf, Stored, Serves, BucketFits, ServeChunk, Buckets, Pending, MarkAll, SignatureMap, StateKey;
    var mem := LoadMarks(s.disk, early);
    var s1 := s.(run := Loaded(mem));
    var s2 := s.(run := Sending(mem, s.log, [b], 0, Ready));
    var s3 := s.(run := Sending(mem, s.log, [b], 0, InFlight));
    ExecOne(c, s, Begin(early));
    ExecThen(c, s, [Begin(early)], s1, Read);
    SendEnabled(c);
    ExecThen(c, s, [Begin(early)] + [Read], s2, Send);
    ExecThen(c, s, [Begin(early)] + [Read] + [Send], s3, Respond(false));
    OneBucketAccepted(c, s.table, b);
    assert Chunk(c, [b], 0) == [b];
  }

  lemma SendEnabled(c: Client)
    requires Serves(c)
    ensures c.batchSize >= 1
  {
  }

  lemma SingleRun(c: Client, s: Sys, early: Marks, b: Bucket)
    requires Serves(c) && BucketFits(b) && s.run == NoRun && early in s.saved
    requires Pending(c, Buckets(c.filter, s.log), LoadMarks(s.disk, early)) == [b]
    ensures
      b in Buckets(c.filter, s.log) &&
      var slot := StateKey(c.source, b.id);
      var mem := LoadMarks(s.disk, early)[slot := SignatureMap(c, Buckets(c.filter, s.log))[slot]];
      Exec(c, s, WholeRun(early))
        == Some(s.(table := s.table[RowKeyOf(c, b.id) := Stored(b.usage)],
                   disk := Readable(mem), saved := s.saved + {mem}))
  {
    hide RowKeyOf, Stored, Serves, BucketFits, Buckets, SignatureMap, StateKey, UpToResponse, Exec, Next;
    SingleSend(c, s, early, b);
    SendEnabled(c);
    assert b in [b];
    var sent := s.(table := s.table[RowKeyOf(c, b.id) := Stored(b.usage)],
                   run := Sending(LoadMarks(s.disk, early), s.log, [b], 0, Acked));
    MarkedAndSaved(c, sent, LoadMarks(s.disk, early), b);
    ExecConcat(c, s, UpToResponse(early), [Mark] + [Save] + [Finish]);
    assert UpToResponse(early) + ([Mark] + [Save] + [Finish]) == WholeRun(early);
  }

  // The rest of a run whose only chunk was acknowledged.
  lemma MarkedAndSaved(c: Client, s: Sys, before: Marks, b: Bucket)
    requires c.batchSize >= 1 && s.run == Sending(before, s.log, [b], 0, Acked) && b in Buckets(c.filter, s.log)
    ensures
      var slot := StateKey(c.source, b.id);
      var mem := before[slot := SignatureMap(c, Buckets(c.filter, s.log))[slot]];
      Exec(c, s, [Mark] + [Save] + [Finish])
        == Some(s.(disk := Readable(mem), saved := s.saved + {mem}, run := NoRun))
  {
    hide Buckets, SignatureMap, StateKey, ServeChunk;
    var slot, sigs := StateKey(c.source, b.id), SignatureMap(c, Buckets(c.filter, s.log));
    assert slot in sigs;
    var mem := before[slot := sigs[slot]];
    assert Chunk(c, [b], 0) == [b] && [b][..0] == [];
    assert MarkAll(c, before, [b], sigs) == mem;
    var s1 := s.(run := Sending(mem, s.log, [b], 0, Marked));
    var s2 := s.(disk := Readable(mem), saved := s.saved + {mem}, run := Sending(mem, s.log, [b], 1, Ready));
    assert Next(c, s, Mark) == Some(s1);
    assert Next(c, s1, Save) == Some(s2);
    assert s2.saved + {mem} == s2.saved;
    assert Next(c, s2, Finish) == Some(s2.(run := NoRun));
    hide Next, MarkAll, Exec;
    ExecOne(c, s, Mark);
    ExecThen(c, s, [Mark], s1, Save);
    ExecThen(c, s, [Mark] + [Save], s2, Finish);
  }

  /* ---------- small logs ---------- */

  // A successful request that used no tokens.
  function Plain(r: LogRow): LogRow {
    r.(status := Some(200), inputTokens := None, outputTokens := None, cacheReadTokens := None,
       cacheCreationTokens := None, cost := None)
  }

  // The usage of n plain requests.
  function PlainUsage(n: int): Usage {
    Usage(n, n, 0, 0, 0, 0, 0)
  }

  // Keys some row can have.
  ghost predicate Producible(c: Client, k: RawKey) {
    exists r :: HasKey(c.filter, r, k)
  }

  lemma PlainKeepsKey(f: Filter, r: LogRow, k: RawKey)
    requires HasKey(f, r, k)
    ensures HasKey(f, Plain(r), k) && RowUsage(Plain(r)) == PlainUsage(1)
  {
  }

  lemma PlainRows(r: LogRow, q: LogRow)
    requires RowUsage(r) == PlainUsage(1) && RowUsage(q) == PlainUsage(1)
    ensures Total([r]) == PlainUsage(1) && Total([r, q]) == PlainUsage(2)
  {
    hide RowUsage;
    TotalOfOne(r);
    assert [r, q][..1] == [r];
  }

  lemma TotalOfOne(r: LogRow)
    ensures Total([r]) == RowUsage(r)
  {
    hide RowUsage;
    assert [r][..0] == [];
    assert Total([r][..0]) == NO_USAGE;
  }

  lemma EmptyLog(f: Filter, k: RawKey)
    ensures RowsOf(f, [], k) == [] && FirstSeen(f, []) == []
  {
  }

  lemma OneRowLog(f: Filter, r: LogRow, k: RawKey)
    requires HasKey(f, r, k)
    ensures FirstSeen(f, [r]) == [k] && RowsOf(f, [r], k) == [r]
    ensures forall l :: l != k ==> RowsOf(f, [r], l) == []
  {
    EmptyLog(f, k);
    assert [] + [r] == [r];
    FirstSeenSnoc(f, [], r);
    RowsOfSnoc(f, [], r, k);
    forall l | l != k ensures RowsOf(f, [r], l) == [] {
      EmptyLog(f, l);
      RowsOfSnoc(f, [], r, l);
    }
  }

  // One row of k, then two of l.
  lemma {:induction false} RowsOfThree(f: Filter, r: LogRow, q: LogRow, k: RawKey, l: RawKey, m: RawKey)
    requires k != l && HasKey(f, r, k) && HasKey(f, q, l)
    ensures RowsOf(f, [r, q], m) == (if m == k then [r] else if m == l then [q] else [])
    ensures RowsOf(f, [r, q, q], m) == (if m == k then [r] else if m == l then [q, q] else [])
  {
    OneRowLog(f, r, k);
    assert HasKey(f, q, m) <==> m == l;
    hide HasKey, RowsOf;
    assert [r, q] == [r] + [q] && [r, q, q] == [r, q] + [q];
    RowsOfSnoc(f, [r], q, m);
    RowsOfSnoc(f, [r, q], q, m);
    assert [] + [q] == [q];
  }

  lemma {:induction false} FirstSeenThree(f: Filter, r: LogRow, q: LogRow, k: RawKey, l: RawKey)
    requires k != l && HasKey(f, r, k) && HasKey(f, q, l)
    ensures FirstSeen(f, [r, q, q]) == [k, l]
  {
    OneRowLog(f, r, k);
    hide FirstSeen;
    assert [r, q] == [r] + [q] && [r, q, q] == [r, q] + [q];
    FirstSeenSnoc(f, [r], q);
    FirstSeenSnoc(f, [r, q], q);
  }

  lemma SortedOne(b: Bucket)
    ensures Sorted([b]) == [b]
  {
    assert [b][..0] == [];
    assert Sorted([b][..0]) == [];
  }

  lemma SortedTwo(a: Bucket, b: Bucket)
    ensures Sorted([a, b]) == [a, b] || Sorted([a, b]) == [b, a]
  {
    SortedOne(a);
    assert [a, b][..1] == [a];
    assert [a][..0] == [];
  }

  lemma OneRowBuckets(f: Filter, r: LogRow, k: RawKey)
    requires HasKey(f, r, k) && RowUsage(r) == PlainUsage(1)
    ensures Buckets(f, [r]) == [Bucket(IdOf(k), PlainUsage(1))]
  {
    OneRowLog(f, r, k);
    PlainRows(r, r);
    assert BucketsOf(f, [r], [k]) == [Bucket(IdOf(k), PlainUsage(1))];
    SortedOne(Bucket(IdOf(k), PlainUsage(1)));
  }

  /* ---------- keys that clash ---------- */

  lemma PlainBucketFits(k: RawKey, n: nat)
    requires !Blank(k.model) && n <= 2
    ensures BucketFits(Bucket(IdOf(k), PlainUsage(n)))
  {
    hide Trim;
  }

  lemma PlainSignatures()
    ensures Signature(PlainUsage(1)) != Signature(PlainUsage(2))
    ensures Stored(PlainUsage(1)) == PlainUsage(1) && Stored(PlainUsage(2)) == PlainUsage(2)
  {
    if Signature(PlainUsage(1)) == Signature(PlainUsage(2)) {
      SignatureInjective(PlainUsage(1), PlainUsage(2));
    }
  }

  lemma UnmarkedPending(c: Client, b: Bucket)
    ensures Pending(c, [b], map[]) == [b]
  {
    hide StateKey, Signature;
    assert [b][..0] == [];
  }

  lemma SignatureOfOne(c: Client, b: Bucket)
    ensures SignatureMap(c, [b]) == map[StateKey(c.source, b.id) := Signature(b.usage)]
  {
    hide StateKey, Signature;
    assert [b][..0] == [];
    assert SignatureMap(c, []) == map[];
  }

  // A run without a state file over a log with a single bucket of n plain requests.
  lemma UnmarkedRun(c: Client, s: Sys, k: RawKey, n: nat) returns (t: Sys)
    requires Serves(c) && !Blank(k.model) && n <= 2
    requires s.run == NoRun && s.disk == Unreadable && map[] in s.saved
    requires Buckets(c.filter, s.log) == [Bucket(IdOf(k), PlainUsage(n))]
    ensures Exec(c, s, WholeRun(map[])) == Some(t)
    ensures t.log == s.log && t.run == NoRun && t.strays == s.strays
    ensures t.disk == Readable(map[SlotOf(c, k) := Signature(PlainUsage(n))]) && t.disk.marks in t.saved
    ensures t.table == s.table[RowOf(c, k) := PlainUsage(n)]
  {
    hide StateKey, RowKeyOf, Signature, Serves, BucketFits, Pending, SignatureMap, Exec, WholeRun, Buckets;
    var b := Bucket(IdOf(k), PlainUsage(n));
    UnmarkedPending(c, b);
    SignatureOfOne(c, b);
    PlainBucketFits(k, n);
    assert Stored(PlainUsage(n)) == PlainUsage(n);
    SingleRun(c, s, map[], b);
    t := Exec(c, s, WholeRun(map[])).value;
  }

  // A log with one plain row of k, reported without trouble.
  lemma FirstReport(c: Client, r: LogRow, k: RawKey) returns (events: seq<Event>, s: Sys)
    requires Serves(c) && HasKey(c.filter, r, k) && RowUsage(r) == PlainUsage(1) && !Blank(k.model)
    ensures Exec(c, START, events) == Some(s) && NoDelivery(events)
    ensures s.log == [r] && s.run == NoRun && s.disk.Readable? && s.disk.marks in s.saved && s.strays == []
    ensures s.disk.marks == map[SlotOf(c, k) := Signature(PlainUsage(1))]
    ensures s.table == map[RowOf(c, k) := PlainUsage(1)]
  {
    hide SlotOf, RowOf, Signature, Serves, HasKey, Exec, WholeRun, Buckets;
    var s0 := START.(log := [r]);
    assert START.log + [r] == [r];
    ExecOne(c, START, Append(r));
    OneRowBuckets(c.filter, r, k);
    s := UnmarkedRun(c, s0, k, 1);
    ExecConcat(c, START, [Append(r)], WholeRun(map[]));
    events := [Append(r)] + WholeRun(map[]);
    NoDeliveryInRun(map[]);
  }

  lemma NoDeliveryInRun(early: Marks)
    ensures NoDelivery(WholeRun(early)) && NoDelivery(UpToResponse(early))
  {
  }

  // Clashing slots: the second bucket looks as if it had been sent.
  lemma SlotClashHidesBucket(c: Client, r: LogRow, q: LogRow, k: RawKey, l: RawKey) returns (events: seq<Event>, s: Sys)
    requires Serves(c) && k != l && SlotOf(c, k) == SlotOf(c, l) && RowOf(c, k) != RowOf(c, l) && !Blank(k.model)
    requires HasKey(c.filter, r, k) && HasKey(c.filter, q, l)
    requires RowUsage(r) == PlainUsage(1) && RowUsage(q) == PlainUsage(1)
    ensures Exec(c, START, events) == Some(s) && NoDelivery(events) && !SkipSafe(c, s)
    ensures s.log == [r, q]
  {
    hide SlotOf, RowOf, Signature, Stored, Serves, HasKey, RowsOf, Total, SkipSafe;
    var before, t := FirstReport(c, r, k);
    events := before + [Append(q)];
    ExecThen(c, START, before, t, Append(q));
    s := t.(log := t.log + [q]);
    assert t.log + [q] == [r, q];
    RowsOfThree(c.filter, r, q, k, l, l);
    PlainRows(q, q);
    MissingRowUnsafe(c, s, l, s.disk.marks);
  }

  lemma MissingRowUnsafe(c: Client, s: Sys, k: RawKey, marks: Marks)
    requires marks in s.saved && Live(c, s.log, k) && Current(c, s.log, k) == PlainUsage(1)
    requires SlotOf(c, k) in marks && marks[SlotOf(c, k)] == Signature(PlainUsage(1))
    requires RowOf(c, k) !in s.table
    ensures !SkipSafe(c, s)
  {
    hide SlotOf, RowOf, Signature, Stored;
    assert Consulted(s, marks);
    assert !SkipSafeFor(c, s, marks, k);
  }

  // Clashing rows: the second bucket overwrites the first, which still counts as sent.
  lemma RowClashOverwrites(c: Client, r: LogRow, q: LogRow, k: RawKey, l: RawKey) returns (events: seq<Event>, s: Sys)
    requires Serves(c) && k != l && RowOf(c, k) == RowOf(c, l) && !Blank(k.model) && !Blank(l.model)
    requires HasKey(c.filter, r, k) && HasKey(c.filter, q, l)
    requires RowUsage(r) == PlainUsage(1) && RowUsage(q) == PlainUsage(1)
    ensures Exec(c, START, events) == Some(s) && NoDelivery(events) && !SkipSafe(c, s)
    ensures s.log == [r, q, q]
  {
    hide SlotOf, RowOf, Signature, Stored, Serves, HasKey, NoDelivery, SkipSafe, Exec, At, RowsOf, Total,
         RowUsage, Blank;
    events, s := SecondReport(c, r, q, k, l);
    RowsOfThree(c.filter, r, q, k, l, k);
    PlainRows(r, r);
    OverwrittenUnsafe(c, s, k, map[SlotOf(c, k) := Signature(PlainUsage(1))]);
  }

  // One row of k is reported, two rows of l are logged and their bucket is sent.
  lemma SecondReport(c: Client, r: LogRow, q: LogRow, k: RawKey, l: RawKey) returns (events: seq<Event>, s: Sys)
    requires Serves(c) && k != l && !Blank(k.model) && !Blank(l.model)
    requires HasKey(c.filter, r, k) && HasKey(c.filter, q, l)
    requires RowUsage(r) == PlainUsage(1) && RowUsage(q) == PlainUsage(1)
    ensures Exec(c, START, events) == Some(s) && NoDelivery(events) && s.log == [r, q, q]
    ensures map[SlotOf(c, k) := Signature(PlainUsage(1))] in s.saved
    ensures At(s.table, RowOf(c, l)) == Some(PlainUsage(2))
  {
    hide StateKey, RowKeyOf, Signature, Serves, HasKey, UpToResponse, BucketFits, NoDelivery;
    var before, t := FirstReport(c, r, k);
    var u := t.(log := [r, q, q]);
    assert t.log + [q] == [r, q] && [r, q] + [q] == [r, q, q];
    ExecThen(c, START, before, t, Append(q));
    ExecThen(c, START, before + [Append(q)], t.(log := [r, q]), Append(q));
    var grown := before + [Append(q)] + [Append(q)];
    SecondReportPending(c, r, q, k, l, t.disk.marks);
    PlainBucketFits(l, 2);
    SingleSend(c, u, t.disk.marks, Bucket(IdOf(l), PlainUsage(2)));
    ExecConcat(c, START, grown, UpToResponse(t.disk.marks));
    events := grown + UpToResponse(t.disk.marks);
    s := Exec(c, START, events).value;
    NoDeliveryGrown(before, q, t.disk.marks);
  }

  lemma NoDeliveryGrown(before: seq<Event>, q: LogRow, early: Marks)
    requires NoDelivery(before)
    ensures NoDelivery(before + [Append(q)] + [Append(q)] + UpToResponse(early))
  {
    NoDeliveryInRun(early);
  }

  lemma OverwrittenUnsafe(c: Client, s: Sys, k: RawKey, marks: Marks)
    requires marks in s.saved && Live(c, s.log, k) && Current(c, s.log, k) == PlainUsage(1)
    requires SlotOf(c, k) in marks && marks[SlotOf(c, k)] == Signature(PlainUsage(1))
    requires At(s.table, RowOf(c, k)) == Some(PlainUsage(2))
    ensures !SkipSafe(c, s)
  {
    hide SlotOf, RowOf, Signature;
    assert Consulted(s, marks);
    assert Stored(PlainUsage(1)) == PlainUsage(1);
    assert !SkipSafeFor(c, s, marks, k);
  }

  lemma SecondReportPending(c: Client, r: LogRow, q: LogRow, k: RawKey, l: RawKey, marks: Marks)
    requires k != l && HasKey(c.filter, r, k) && HasKey(c.filter, q, l)
    requires RowUsage(r) == PlainUsage(1) && RowUsage(q) == PlainUsage(1)
    requires marks == map[SlotOf(c, k) := Signature(PlainUsage(1))]
    ensures Pending(c, Buckets(c.filter, [r, q, q]), marks) == [Bucket(IdOf(l), PlainUsage(2))]
  {
    hide StateKey, RowKeyOf, Signature, HasKey, Sorted, Pending;
    RowsOfThree(c.filter, r, q, k, l, k);
    RowsOfThree(c.filter, r, q, k, l, l);
    FirstSeenThree(c.filter, r, q, k, l);
    PlainRows(r, q);
    PlainRows(q, q);
    PlainSignatures();
    var a, b := Bucket(IdOf(k), PlainUsage(1)), Bucket(IdOf(l), PlainUsage(2));
    assert BucketsOf(c.filter, [r, q, q], [k, l]) == [a, b];
    SortedTwo(a, b);
    assert IsMarked(c, marks, a) && !IsMarked(c, marks, b);
    PendingOfTwo(c, a, b, marks);
    PendingOfTwo(c, b, a, marks);
  }

  lemma PendingOfTwo(c: Client, a: Bucket, b: Bucket, marks: Marks)
    ensures Pending(c, [a, b], marks)
         == (if IsMarked(c, marks, a) then [] else [a]) + (if IsMarked(c, marks, b) then [] else [b])
  {
    hide IsMarked;
    assert [a, b][..1] == [a];
    assert [a][..0] == [];
  }

  /* ---------- the exact condition ---------- */

  ghost predicate LogWithin(c: Client, log: seq<LogRow>, keys: iset<RawKey>) {
    forall k :: Live(c, log, k) ==> k in keys
  }

  ghost predicate RunIsSafe(c: Client, keys: iset<RawKey>, events: seq<Event>) {
    var end := Exec(c, START, events);
    end.Some? && HarmlessHistory(c, events) && LogWithin(c, end.value.log, keys) ==> SkipSafe(c, end.value)
  }

  // For a set of bucket keys that can occur, every run over logs with these keys is skip safe
  // if and only if no two of them clash.
  lemma SkipSafetyExactly(c: Client, keys: iset<RawKey>)
    requires Serves(c) && forall k :: k in keys ==> Producible(c, k)
    ensures (forall events :: RunIsSafe(c, keys, events))
        <==> (forall k, l :: k in keys && l in keys ==> !Clash(c, k, l))
  {
    hide Serves, SkipSafe, Clash, Producible, HarmlessHistory;
    if forall k, l :: k in keys && l in keys ==> !Clash(c, k, l) {
      forall events ensures RunIsSafe(c, keys, events) {
        if Exec(c, START, events).Some? && HarmlessHistory(c, events)
           && LogWithin(c, Exec(c, START, events).value.log, keys) {
          assert Separate(c, Exec(c, START, events).value.log);
          SkipSafety(c, events);
        }
      }
    }
    forall k, l | k in keys && l in keys && Clash(c, k, l) ensures exists events :: !RunIsSafe(c, keys, events) {
      var events := UnsafeRun(c, keys, k, l);
    }
  }

  lemma UnsafeRun(c: Client, keys: iset<RawKey>, k: RawKey, l: RawKey) returns (events: seq<Event>)
    requires Serves(c) && Producible(c, k) && Producible(c, l) && k in keys && l in keys && Clash(c, k, l)
    ensures !RunIsSafe(c, keys, events)
    decreases Blank(k.model)
  {
    hide Serves, SkipSafe, StateKey, RowKeyOf, HasKey, HarmlessHistory;
    if Blank(k.model) {
      events := UnsafeRun(c, keys, l, k);
    } else {
      var r0 :| HasKey(c.filter, r0, k);
      var q0 :| HasKey(c.filter, q0, l);
      var r, q := Plain(r0), Plain(q0);
      PlainKeepsKey(c.filter, r0, k);
      PlainKeepsKey(c.filter, q0, l);
      var s: Sys;
      if RowOf(c, k) == RowOf(c, l) {
        SameRowBothNamed(c, k, l);
        events, s := RowClashOverwrites(c, r, q, k, l);
      } else {
        events, s := SlotClashHidesBucket(c, r, q, k, l);
      }
      forall m | Live(c, s.log, m) ensures m in keys {
        RowsOfThree(c.filter, r, q, k, l, m);
      }
      NoDeliveryIsHarmless(c, events);
    }
  }

  lemma SameRowBothNamed(c: Client, k: RawKey, l: RawKey)
    requires RowOf(c, k) == RowOf(c, l)
    ensures Blank(k.model) == Blank(l.model)
  {
  }

  /* ---------- requests that arrive too late ---------- */

  // A request that its sender gave up on and that reaches the server after a newer one
  // overwrites the newer value, and the state file says the newer value was sent.
  lemma LateDeliveryBreaksSkipSafety(c: Client, r: LogRow, k: RawKey) returns (events: seq<Event>, s: Sys)
    requires Serves(c) && HasKey(c.filter, r, k) && RowUsage(r) == PlainUsage(1) && !Blank(k.model)
    ensures Exec(c, START, events) == Some(s) && Separate(c, s.log) && !SkipSafe(c, s)
  {
    hide *;
    var before, t := AbandonedThenSent(c, r, k);
    DeliverFirst(c, t, r, k);
    ExecThen(c, START, before, t, Deliver(0));
    events := before + [Deliver(0)];
    s := t.(table := t.table[RowOf(c, k) := PlainUsage(1)]);
    OneKeySeparate(c, r, k);
    StaleUnsafe(c, t, k, t.disk.marks);
  }

  lemma OneKeySeparate(c: Client, r: LogRow, k: RawKey)
    requires HasKey(c.filter, r, k) && RowUsage(r) == PlainUsage(1)
    ensures Separate(c, [r, r]) && Live(c, [r, r], k) && Current(c, [r, r], k) == PlainUsage(2)
  {
    hide HasKey, Total;
    TwoRowBuckets(c.filter, r, k);
    forall l | l != k ensures !Live(c, [r, r], l) {
      TwoRowOther(c.filter, r, k, l);
    }
  }

  lemma DeliverFirst(c: Client, t: Sys, r: LogRow, k: RawKey)
    requires Serves(c) && !Blank(k.model) && t.strays == [Stray([r], [Bucket(IdOf(k), PlainUsage(1))])]
    ensures Next(c, t, Deliver(0)) == Some(t.(table := t.table[RowOf(c, k) := PlainUsage(1)]))
  {
    hide RowOf, Serves, ServeChunk, Blank, IdOf, PlainUsage;
    ServePlain(c, t.table, k);
  }

  lemma ServePlain(c: Client, table: Table, k: RawKey)
    requires Serves(c) && !Blank(k.model)
    ensures ServeChunk(c, table, [Bucket(IdOf(k), PlainUsage(1))]).1 == table[RowOf(c, k) := PlainUsage(1)]
  {
    hide RowKeyOf, Serves, BucketFits, ServeChunk, Stored, Blank, IdOf, Signature;
    PlainBucketFits(k, 1);
    PlainSignatures();
    OneBucketAccepted(c, table, Bucket(IdOf(k), PlainUsage(1)));
  }

  // The first request is given up on; a second row is logged and reported without trouble.
  lemma AbandonedThenSent(c: Client, r: LogRow, k: RawKey) returns (events: seq<Event>, t: Sys)
    requires Serves(c) && HasKey(c.filter, r, k) && RowUsage(r) == PlainUsage(1) && !Blank(k.model)
    ensures Exec(c, START, events) == Some(t) && t.log == [r, r]
    ensures t.strays == [Stray([r], [Bucket(IdOf(k), PlainUsage(1))])]
    ensures t.disk.Readable? && t.disk.marks in t.saved
    ensures SlotOf(c, k) in t.disk.marks && t.disk.marks[SlotOf(c, k)] == Signature(PlainUsage(2))
  {
    hide SlotOf, RowOf, Signature, Serves, HasKey, Exec, WholeRun, Buckets;
    var given := AbandonedFirst(c, r, k);
    var s1 := Sys([r], Unreadable, {map[]}, map[], NoRun, [Stray([r], [Bucket(IdOf(k), PlainUsage(1))])]);
    var s2 := s1.(log := [r, r]);
    assert s1.log + [r] == s2.log;
    ExecThen(c, START, given, s1, Append(r));
    TwoRowBuckets(c.filter, r, k);
    t := UnmarkedRun(c, s2, k, 2);
    ExecConcat(c, START, given + [Append(r)], WholeRun(map[]));
    events := given + [Append(r)] + WholeRun(map[]);
  }

  lemma AbandonedFirst(c: Client, r: LogRow, k: RawKey) returns (events: seq<Event>)
    requires Serves(c) && HasKey(c.filter, r, k) && RowUsage(r) == PlainUsage(1)
    ensures Exec(c, START, events)
         == Some(Sys([r], Unreadable, {map[]}, map[], NoRun, [Stray([r], [Bucket(IdOf(k), PlainUsage(1))])]))
  {
    hide StateKey, RowKeyOf, Signature, HasKey, ServeChunk, Pending, SignatureMap, Buckets;
    var b := Bucket(IdOf(k), PlainUsage(1));
    var s0 := START.(log := [r]);
    assert START.log + [r] == [r];
    OneRowBuckets(c.filter, r, k);
    UnmarkedPending(c, b);
    SignatureOfOne(c, b);
    ExecOne(c, START, Append(r));
    ExecThen(c, START, [Append(r)], s0, Begin(map[]));
    ExecThen(c, START, [Append(r)] + [Begin(map[])], s0.(run := Loaded(map[])), Read);
    var sending := [Append(r)] + [Begin(map[])] + [Read];
    ExecThen(c, START, sending, s0.(run := Sending(map[], [r], [b], 0, Ready)), Send);
    ExecThen(c, START, sending + [Send], s0.(run := Sending(map[], [r], [b], 0, InFlight)), GiveUp);
    assert Chunk(c, [b], 0) == [b];
    assert s0.strays + [Stray([r], [b])] == [Stray([r], [b])];
    SendEnabled(c);
    events := sending + [Send] + [GiveUp];
  }

  lemma TwoRowLog(f: Filter, r: LogRow, k: RawKey)
    requires HasKey(f, r, k)
    ensures RowsOf(f, [r, r], k) == [r, r] && FirstSeen(f, [r, r]) == [k]
  {
    OneRowLog(f, r, k);
    assert [r, r] == [r] + [r];
    RowsOfSnoc(f, [r], r, k);
    FirstSeenSnoc(f, [r], r);
  }

  lemma TwoRowOther(f: Filter, r: LogRow, k: RawKey, l: RawKey)
    requires HasKey(f, r, k) && l != k
    ensures RowsOf(f, [r, r], l) == []
  {
    OneRowLog(f, r, k);
    assert [r, r] == [r] + [r];
    RowsOfSnoc(f, [r], r, l);
  }

  lemma TwoRowBuckets(f: Filter, r: LogRow, k: RawKey)
    requires HasKey(f, r, k) && RowUsage(r) == PlainUsage(1)
    ensures Buckets(f, [r, r]) == [Bucket(IdOf(k), PlainUsage(2))]
    ensures RowsOf(f, [r, r], k) != [] && Total(RowsOf(f, [r, r], k)) == PlainUsage(2)
  {
    TwoRowLog(f, r, k);
    PlainRows(r, r);
    assert BucketsOf(f, [r, r], [k]) == [Bucket(IdOf(k), PlainUsage(2))];
    SortedOne(Bucket(IdOf(k), PlainUsage(2)));
  }

  lemma StaleUnsafe(c: Client, t: Sys, k: RawKey, marks: Marks)
    requires marks in t.saved && Live(c, t.log, k) && Current(c, t.log, k) == PlainUsage(2)
    requires SlotOf(c, k) in marks && marks[SlotOf(c, k)] == Signature(PlainUsage(2))
    ensures !SkipSafe(c, t.(table := t.table[RowOf(c, k) := PlainUsage(1)]))
  {
    hide SlotOf, RowOf, Signature;
    var s := t.(table := t.table[RowOf(c, k) := PlainUsage(1)]);
    assert Consulted(s, marks);
    assert !SkipSafeFor(c, s, marks, k);
  }

  /* ---------- logs whose keys are separate ---------- */

  // Names as CC Switch writes them: present, without surrounding white space, and without
  // the separator where the state key needs that.
  predicate PlainName(s: string) {
    s != "" && Trimmed(s) && NoBar(s)
  }

  predicate WellFormed(r: LogRow) {
    && r.appType.Some? && PlainName(r.appType.value)
    && r.model.Some? && PlainName(r.model.value)
    && (r.requestModel.Some? ==> Trimmed(r.requestModel.value))
  }

  predicate WellFormedKey(k: RawKey) {
    && k.app.Some? && PlainName(k.app.value)
    && PlainName(k.model)
    && k.requestModel.Some? && k.requestModel.value != "" && Trimmed(k.requestModel.value)
  }

  lemma WellFormedKeysDoNotClash(c: Client, k: RawKey, l: RawKey)
    requires NoBar(c.source) && WellFormedKey(k) && WellFormedKey(l)
    ensures !Clash(c, k, l) && !Blank(k.model)
  {
    hide StateKey, RowKeyOf, Trim;
    if SlotOf(c, k) == SlotOf(c, l) {
      StateKeyInjective(c.source, IdOf(k), c.source, IdOf(l));
      assert k == l;
    }
    if RowOf(c, k) == RowOf(c, l) {
      WellFormedRowKey(c, k);
      WellFormedRowKey(c, l);
      assert k == l;
    }
  }

  lemma WellFormedRowKey(c: Client, k: RawKey)
    requires WellFormedKey(k)
    ensures RowOf(c, k) == RowKey(UserOf(c), EffectiveSource(c.source), k.day, k.app.value, k.model,
        k.requestModel.value)
  {
    hide Trim, EffectiveSource;
  }

  lemma {:induction false} LiveKeyHasRow(f: Filter, log: seq<LogRow>, k: RawKey) returns (r: LogRow)
    requires RowsOf(f, log, k) != []
    ensures r in log && HasKey(f, r, k)
  {
    var last := log[|log| - 1];
    if HasKey(f, last, k) {
      r := last;
    } else {
      r := LiveKeyHasRow(f, log[..|log| - 1], k);
    }
  }

  // Logs with well-formed rows never confuse the protocol.
  lemma WellFormedLogsAreSeparate(c: Client, log: seq<LogRow>)
    requires NoBar(c.source) && forall r :: r in log ==> WellFormed(r)
    ensures Separate(c, log)
    ensures forall k :: Live(c, log, k) ==> !Blank(k.model)
  {
    hide Clash, PlainName;
    forall k | Live(c, log, k) ensures WellFormedKey(k) {
      var r := LiveKeyHasRow(c.filter, log, k);
      assert WellFormed(r);
      WellFormedRowHasWellFormedKey(r);
    }
    forall k, l | Live(c, log, k) && Live(c, log, l) ensures !Clash(c, k, l) && !Blank(k.model) {
      WellFormedKeysDoNotClash(c, k, l);
    }
  }

  lemma WellFormedRowHasWellFormedKey(r: LogRow)
    requires WellFormed(r) && r.createdAt.Some?
    ensures WellFormedKey(KeyOf(r))
  {
    hide Trimmed, NoBar;
  }

  // Names that do break the separation: a separator inside a model name makes two buckets
  // share a slot, and a missing application makes one share a row with "unknown".
  lemma BarInModelClashes(c: Client, day: int, app: string, a: string, b: string, x: string)
    requires app != "" && !Blank(a)
    ensures Clash(c, RawKey(day, Some(app), a + "|" + b, Some(x)), RawKey(day, Some(app), a, Some(b + "|" + x)))
  {
    var k, l := RawKey(day, Some(app), a + "|" + b, Some(x)), RawKey(day, Some(app), a, Some(b + "|" + x));
    assert (a + "|" + b) + ("|" + x) == a + ("|" + (b + "|" + x));
    assert k.model + "|" + x == l.model + "|" + (b + "|" + x);
    assert |k.model| == |a| + 1 + |b|;
  }

  lemma MissingAppClashes(c: Client, day: int, model: string, rm: Option<string>)
    requires !Blank(model)
    ensures Clash(c, RawKey(day, None, model, rm), RawKey(day, Some("unknown"), model, rm))
  {
    hide StateKey, RowKeyOf, Trim;
    assert IdOf(RawKey(day, None, model, rm)) == IdOf(RawKey(day, Some("unknown"), model, rm));
  }
}
