// Requests that reach the server after their sender gave up on them: exactly when such a
// delivery leaves a stale row behind a bucket that is skipped (the upsert in
// sidecar/main.go:449-458 has no guard against older values).
module LateDelivery {
  import opened Options
  import opened Text
  import opened UsageLog
  import opened Sidecar
  import opened Client
  import opened Protocol

  // The sidecar turns the chunk away; its answer does not depend on the table.
  predicate TurnedAway(c: Client, chunk: seq<Bucket>) {
    ServeChunk(c, map[], chunk).0.Refused?
  }

  // The maps a reporter may consult, and the one the run is about to have in memory because its
  // chunk was acknowledged.
  ghost predicate WillConsult(c: Client, s: Sys, marks: Marks) {
    Consulted(s, marks) || (Next(c, s, Mark).Some? && Next(c, s, Mark).value.run.mem == marks)
  }

  // No bucket that is or is about to be skipped has a wrong row.
  ghost predicate Secure(c: Client, s: Sys) {
    forall marks, k :: WillConsult(c, s, marks) ==> SkipSafeFor(c, s, marks, k)
  }

  // `d` is the bucket of the log that `b` is an earlier value of, and some map that may be
  // consulted has `d` as reported.
  ghost predicate Outdates(c: Client, s: Sys, d: Bucket, b: Bucket) {
    && d in Buckets(c.filter, s.log) && d.id == b.id && d != b
    && exists marks :: WillConsult(c, s, marks) && IsMarked(c, marks, d)
  }

  // No valid bucket of the chunk has been reported with a newer value.
  ghost predicate Harmless(c: Client, s: Sys, chunk: seq<Bucket>) {
    TurnedAway(c, chunk) || forall b, d :: b in chunk && ValidBucket(b) ==> !Outdates(c, s, d, b)
  }

  /* ---------- what serving a chunk does, bucket by bucket ---------- */

  lemma TurnedAwayExactly(c: Client, table: Table, chunk: seq<Bucket>)
    ensures ServeChunk(c, table, chunk).0 == ServeChunk(c, map[], chunk).0
    ensures TurnedAway(c, chunk) ==> ServeChunk(c, table, chunk).1 == table
  {
    hide Trim, Overwrite, NormalizedRows, Executable, SourceAllowed;
  }

  // Read off the chunk: the request is refused, no bucket is valid, or the rows of the valid
  // ones cannot be stored in one statement.
  lemma TurnedAwayWhen(c: Client, chunk: seq<Bucket>)
    ensures TurnedAway(c, chunk) <==>
            var rows := NormalizedRows(UserOf(c), EffectiveSource(c.source), Items(chunk));
            Refusal(c.config, Payload(c, chunk)).Some? || rows == [] || !Executable(rows)
  {
    hide Trim, Overwrite, NormalizedRows, Executable, SourceAllowed, EffectiveSource;
  }

  lemma ValidItem(c: Client, chunk: seq<Bucket>, i: int, rk: RowKey)
    ensures HasValid(UserOf(c), EffectiveSource(c.source), Items(chunk), i, rk)
       <==> 0 <= i < |chunk| && ValidBucket(chunk[i]) && RowKeyOf(c, chunk[i].id) == rk
  {
    hide Acceptable, KeyFor, RowKeyOf, EffectiveSource, UserOf;
    if 0 <= i < |chunk| {
      KeyIgnoresUsage(c, chunk[i]);
    }
  }

  // A valid bucket of a chunk that is not turned away ends up in its row.
  lemma ValidBucketStored(c: Client, table: Table, chunk: seq<Bucket>, b: Bucket)
    requires !TurnedAway(c, chunk) && b in chunk && ValidBucket(b)
    ensures At(ServeChunk(c, table, chunk).1, RowKeyOf(c, b.id)) == Some(Stored(b.usage))
  {
    hide ValidBucket, HasValid, RowKeyOf, EffectiveSource, Serve, Stored, At;
    TurnedAwayExactly(c, table, chunk);
    var i :| 0 <= i < |chunk| && chunk[i] == b;
    ValidItem(c, chunk, i, RowKeyOf(c, b.id));
    StoredExactly(c.config, table, Payload(c, chunk), RowKeyOf(c, b.id));
  }

  // A row no valid bucket of the chunk goes to is as before.
  lemma OtherRowUnchanged(c: Client, table: Table, chunk: seq<Bucket>, rk: RowKey)
    requires forall b :: b in chunk && ValidBucket(b) ==> RowKeyOf(c, b.id) != rk
    ensures At(ServeChunk(c, table, chunk).1, rk) == At(table, rk)
  {
    hide ValidBucket, HasValid, RowKeyOf, EffectiveSource, Serve, Stored, At;
    forall i ensures !HasValid(UserOf(c), EffectiveSource(c.source), Items(chunk), i, rk) {
      ValidItem(c, chunk, i, rk);
    }
    StoredExactly(c.config, table, Payload(c, chunk), rk);
    assert ServeChunk(c, table, chunk).0.Ok? || ServeChunk(c, table, chunk).0.Refused?;
    if ServeChunk(c, table, chunk).0.Ok? {
      assert c.user.value == UserOf(c);
    }
  }

  lemma ValidIsNamed(b: Bucket)
    requires ValidBucket(b)
    ensures !Blank(b.id.model)
  {
    hide Trim;
  }

  /* ---------- the buckets of one key ---------- */

  // A bucket of the log or of an earlier snapshot belongs to one key of the log.
  lemma KeyOfBucket(c: Client, snap: seq<LogRow>, log: seq<LogRow>, b: Bucket) returns (k: RawKey)
    requires snap <= log && b in Buckets(c.filter, snap)
    ensures Live(c, snap, k) && Live(c, log, k) && b == BucketOf(c.filter, snap, k)
  {
    hide Sorted, BucketsOf;
    BucketsContents(c.filter, snap);
    k :| RowsOf(c.filter, snap, k) != [] && b == BucketOf(c.filter, snap, k);
    RowsOfPrefix(c.filter, snap, log, k);
  }

  // Two keys with one name and a model are one key.
  lemma SameIdSameKey(c: Client, log: seq<LogRow>, k: RawKey, l: RawKey)
    requires Separate(c, log) && Live(c, log, k) && Live(c, log, l)
    requires IdOf(k) == IdOf(l) && !Blank(k.model)
    ensures k == l
  {
    hide StateKey, RowKeyOf, Blank;
    assert !Clash(c, k, l);
  }

  // A past value with the current number of requests is the current value.
  lemma SameCountSameValue(c: Client, snap: seq<LogRow>, log: seq<LogRow>, k: RawKey)
    requires snap <= log
    requires Stored(Total(RowsOf(c.filter, snap, k))).requests == Stored(Total(RowsOf(c.filter, log, k))).requests
    ensures BucketOf(c.filter, snap, k) == BucketOf(c.filter, log, k)
  {
    hide RowsOf;
    RowsOfPrefix(c.filter, snap, log, k);
    var seen, rows := RowsOf(c.filter, snap, k), RowsOf(c.filter, log, k);
    assert |seen| == |rows|;
    assert seen == rows[..|seen|] == rows;
  }

  // Of two values of one bucket only the same are stored alike.
  lemma StoredAlike(c: Client, snap: seq<LogRow>, log: seq<LogRow>, b: Bucket, d: Bucket)
    requires Separate(c, log) && snap <= log && b in Buckets(c.filter, snap) && d in Buckets(c.filter, log)
    requires b.id == d.id && !Blank(b.id.model) && Stored(b.usage).requests == Stored(d.usage).requests
    ensures b == d
  {
    hide Buckets, RowsOf, Separate, Stored, Blank;
    var k := KeyOfBucket(c, snap, log, b);
    var l := KeyOfBucket(c, log, log, d);
    SameIdSameKey(c, log, k, l);
    SameCountSameValue(c, snap, log, k);
  }

  lemma SecureAt(c: Client, s: Sys, marks: Marks, d: Bucket)
    requires Secure(c, s) && WillConsult(c, s, marks) && d in Buckets(c.filter, s.log) && IsMarked(c, marks, d)
    ensures At(s.table, RowKeyOf(c, d.id)) == Some(Stored(d.usage))
  {
    hide StateKey, RowKeyOf, Signature, Stored, Buckets, RowsOf, WillConsult;
    var k := KeyOfBucket(c, s.log, s.log, d);
    assert SkipSafeFor(c, s, marks, k);
  }

  /* ---------- security ---------- */

  // Secure means skip safe now, and still so once an acknowledged chunk has been marked.
  lemma SecureExactly(c: Client, s: Sys)
    ensures Secure(c, s) <==> SkipSafe(c, s) && (Next(c, s, Mark).Some? ==> SkipSafe(c, Next(c, s, Mark).value))
  {
    hide RowOf, SlotOf, Signature, Stored, Buckets, MarkAll, SignatureMap, StateKey, RowsOf;
    if Next(c, s, Mark).Some? {
      var t := Next(c, s, Mark).value;
      assert forall marks, k :: SkipSafeFor(c, t, marks, k) <==> SkipSafeFor(c, s, marks, k);
      assert forall marks :: Consulted(t, marks) <==> marks in s.saved || marks == t.run.mem;
      if SkipSafe(c, s) && SkipSafe(c, t) {
        forall marks, k | WillConsult(c, s, marks) ensures SkipSafeFor(c, s, marks, k) {
          assert Consulted(s, marks) || Consulted(t, marks);
        }
      }
      if Secure(c, s) {
        forall marks, k | Consulted(t, marks) ensures SkipSafeFor(c, t, marks, k) {
          assert WillConsult(c, s, marks);
          assert SkipSafeFor(c, s, marks, k);
        }
      }
    }
  }

  lemma InvIsSecure(c: Client, s: Sys)
    requires Inv(c, s) && Separate(c, s.log)
    ensures Secure(c, s)
  {
    hide Inv, SkipSafe, Secure, Next, Separate;
    SecureExactly(c, s);
    InvGivesSkipSafety(c, s);
    if Next(c, s, Mark).Some? {
      MarkKeepsInv(c, s);
      InvGivesSkipSafety(c, Next(c, s, Mark).value);
    }
  }

  function Delivered(c: Client, s: Sys, i: nat): Sys
    requires i < |s.strays|
  {
    s.(table := ServeChunk(c, s.table, s.strays[i].chunk).1)
  }

  lemma SameMaps(c: Client, s: Sys, i: nat)
    requires i < |s.strays|
    ensures Next(c, s, Deliver(i)) == Some(Delivered(c, s, i))
    ensures forall marks :: WillConsult(c, s, marks) <==> WillConsult(c, Delivered(c, s, i), marks)
  {
    hide ServeChunk, Buckets, MarkAll, SignatureMap, StateKey;
  }

  /* ---------- one late delivery ---------- */

  // In any state the protocol can be in, a delivery leaves a wrong row behind a bucket that is
  // skipped exactly if the sidecar takes the chunk and one of its valid buckets has been
  // reported with a newer value: both can be told before the delivery.
  lemma LateDeliveryExactly(c: Client, s: Sys, i: nat)
    requires Inv(c, s) && Separate(c, s.log) && i < |s.strays|
    ensures Secure(c, Next(c, s, Deliver(i)).value) <==> Harmless(c, s, s.strays[i].chunk)
  {
    hide Inv, Secure, Harmless, Next, Delivered;
    SameMaps(c, s, i);
    if Harmless(c, s, s.strays[i].chunk) {
      HarmlessIsSecure(c, s, i);
    }
    if Secure(c, Delivered(c, s, i)) {
      SecureIsHarmless(c, s, i);
    }
  }

  lemma StrayFromLog(c: Client, s: Sys, i: nat, b: Bucket)
    requires Inv(c, s) && i < |s.strays| && b in s.strays[i].chunk
    ensures s.strays[i].snap <= s.log && b in Buckets(c.filter, s.strays[i].snap)
  {
    hide RowOk, MarksOk, RunOk, NoForeignRows, Buckets;
    assert StrayOk(c, s.log, s.strays[i]);
  }

  lemma HarmlessIsSecure(c: Client, s: Sys, i: nat)
    requires Inv(c, s) && Separate(c, s.log) && i < |s.strays| && Harmless(c, s, s.strays[i].chunk)
    ensures Secure(c, Delivered(c, s, i))
  {
    hide Inv, Harmless, ServeChunk, SkipSafeFor, TurnedAway, Separate, WillConsult, Next;
    var chunk := s.strays[i].chunk;
    InvIsSecure(c, s);
    SameMaps(c, s, i);
    if TurnedAway(c, chunk) {
      TurnedAwayExactly(c, s.table, chunk);
      assert Delivered(c, s, i) == s;
    } else {
      forall marks, k | WillConsult(c, Delivered(c, s, i), marks)
        ensures SkipSafeFor(c, Delivered(c, s, i), marks, k)
      {
        HarmlessForKey(c, s, i, marks, k);
      }
    }
  }

  lemma HarmlessForKey(c: Client, s: Sys, i: nat, marks: Marks, k: RawKey)
    requires Inv(c, s) && Separate(c, s.log) && i < |s.strays|
    requires !TurnedAway(c, s.strays[i].chunk) && Harmless(c, s, s.strays[i].chunk)
    requires Secure(c, s) && WillConsult(c, s, marks)
    ensures SkipSafeFor(c, Delivered(c, s, i), marks, k)
  {
    hide Inv, ServeChunk, StateKey, RowKeyOf, Signature, Stored, ValidBucket, Separate, TurnedAway, Secure,
        WillConsult, Buckets, RowsOf;
    var chunk := s.strays[i].chunk;
    var d := BucketOf(c.filter, s.log, k);
    if Live(c, s.log, k) && IsMarked(c, marks, d) {
      BucketsContents(c.filter, s.log);
      assert d in Buckets(c.filter, s.log);
      SecureAt(c, s, marks, d);
      if exists b :: b in chunk && ValidBucket(b) && RowKeyOf(c, b.id) == RowOf(c, k) {
        var b :| b in chunk && ValidBucket(b) && RowKeyOf(c, b.id) == RowOf(c, k);
        ValidBucketStored(c, s.table, chunk, b);
        StrayFromLog(c, s, i, b);
        SameRowSameId(c, s, i, b, k);
        assert !Outdates(c, s, d, b);
        assert b == d;
      } else {
        OtherRowUnchanged(c, s.table, chunk, RowOf(c, k));
      }
    }
  }

  lemma SameRowSameId(c: Client, s: Sys, i: nat, b: Bucket, k: RawKey)
    requires Inv(c, s) && Separate(c, s.log) && i < |s.strays| && b in s.strays[i].chunk && ValidBucket(b)
    requires Live(c, s.log, k) && RowKeyOf(c, b.id) == RowOf(c, k)
    ensures b.id == IdOf(k)
  {
    hide Inv, ValidBucket, RowKeyOf, RowsOf, Separate, Blank, Buckets;
    StrayFromLog(c, s, i, b);
    ValidIsNamed(b);
    OwnerOfEntry(c, s.log, s.strays[i].snap, [b], k, b);
  }

  lemma SecureIsHarmless(c: Client, s: Sys, i: nat)
    requires Inv(c, s) && Separate(c, s.log) && i < |s.strays| && Secure(c, Delivered(c, s, i))
    ensures Harmless(c, s, s.strays[i].chunk)
  {
    hide Inv, ServeChunk, RowKeyOf, Stored, ValidBucket, Separate, TurnedAway, Secure, WillConsult, Next, Buckets,
        IsMarked;
    var chunk := s.strays[i].chunk;
    SameMaps(c, s, i);
    if !TurnedAway(c, chunk) {
      forall b, d | b in chunk && ValidBucket(b) ensures !Outdates(c, s, d, b) {
        if Outdates(c, s, d, b) {
          var marks :| WillConsult(c, s, marks) && IsMarked(c, marks, d);
          SecureAt(c, Delivered(c, s, i), marks, d);
          ValidBucketStored(c, s.table, chunk, b);
          StrayFromLog(c, s, i, b);
          ValidIsNamed(b);
          StoredAlike(c, s.strays[i].snap, s.log, b, d);
        }
      }
    }
  }

  // When everything has been reported, a delivery is harmless exactly if the chunk is turned
  // away or none of its valid buckets has grown since.
  lemma LateAfterConvergence(c: Client, s: Sys, i: nat, marks: Marks)
    requires Inv(c, s) && Separate(c, s.log) && i < |s.strays|
    requires marks in s.saved && Pending(c, Buckets(c.filter, s.log), marks) == []
    ensures Secure(c, Next(c, s, Deliver(i)).value)
       <==> TurnedAway(c, s.strays[i].chunk)
            || forall b :: b in s.strays[i].chunk && ValidBucket(b) ==> b in Buckets(c.filter, s.log)
  {
    hide Inv, Secure, Next, ValidBucket, TurnedAway, Separate, Buckets, Pending, IsMarked, Outdates;
    LateDeliveryExactly(c, s, i);
    forall b | b in s.strays[i].chunk && ValidBucket(b)
      ensures b in Buckets(c.filter, s.log) <==> forall d :: !Outdates(c, s, d, b)
    {
      StillCurrent(c, s, i, marks, b);
    }
  }

  lemma StillCurrent(c: Client, s: Sys, i: nat, marks: Marks, b: Bucket)
    requires Inv(c, s) && Separate(c, s.log) && i < |s.strays| && b in s.strays[i].chunk && ValidBucket(b)
    requires marks in s.saved && Pending(c, Buckets(c.filter, s.log), marks) == []
    ensures b in Buckets(c.filter, s.log) <==> forall d :: !Outdates(c, s, d, b)
  {
    hide Inv, ValidBucket, Separate, Buckets, Pending, IsMarked, RowsOf, Blank, Next;
    StrayFromLog(c, s, i, b);
    ValidIsNamed(b);
    var k := KeyOfBucket(c, s.strays[i].snap, s.log, b);
    var d := BucketOf(c.filter, s.log, k);
    BucketsContents(c.filter, s.log);
    assert d in Buckets(c.filter, s.log) && Consulted(s, marks) && WillConsult(c, s, marks);
    PendingContents(c, Buckets(c.filter, s.log), marks, d);
    if b in Buckets(c.filter, s.log) {
      forall e | Outdates(c, s, e, b) ensures false {
        var l := KeyOfBucket(c, s.log, s.log, e);
        var m := KeyOfBucket(c, s.log, s.log, b);
        SameIdSameKey(c, s.log, m, l);
      }
    } else {
      assert Outdates(c, s, d, b);
    }
  }

  /* ---------- a harmless delivery does no harm later either ---------- */

  lemma HarmlessKeepsInv(c: Client, s: Sys, i: nat)
    requires Inv(c, s) && Separate(c, s.log) && i < |s.strays| && Harmless(c, s, s.strays[i].chunk)
    ensures Inv(c, Delivered(c, s, i))
  {
    hide *;
    HarmlessIsSecure(c, s, i);
    DeliveredKeepsRows(c, s, i);
    DeliveredKeepsSaved(c, s, i);
    DeliveredKeepsRun(c, s, i);
    DeliveredParts(c, s, i);
  }

  lemma DeliveredParts(c: Client, s: Sys, i: nat)
    requires Inv(c, s) && i < |s.strays|
    requires forall k :: RowOk(c, s.log, Delivered(c, s, i).table, k)
    requires forall marks :: marks in s.saved ==> MarksOk(c, s.log, Delivered(c, s, i).table, marks)
    requires RunOk(c, Delivered(c, s, i)) && NoForeignRows(c, Delivered(c, s, i))
    ensures Inv(c, Delivered(c, s, i))
  {
    hide RowOk, MarksOk, NoForeignRows, StrayOk, RunOk, ServeChunk;
  }

  lemma DeliveredKeepsRows(c: Client, s: Sys, i: nat)
    requires Inv(c, s) && Separate(c, s.log) && i < |s.strays|
    ensures forall k :: RowOk(c, s.log, Delivered(c, s, i).table, k)
    ensures NoForeignRows(c, Delivered(c, s, i))
  {
    hide ServeChunk, RowOf, RowKeyOf, MarksOk, RunOk, FromSnapshot, RowInUse, Separate, RowOk;
    var stray := s.strays[i];
    assert StrayOk(c, s.log, stray);
    forall k ensures RowOk(c, s.log, Delivered(c, s, i).table, k) {
      assert RowOk(c, s.log, s.table, k);
      DeliveredRow(c, s, i, k);
    }
    forall rk | rk in Delivered(c, s, i).table ensures RowInUse(c, s.log, rk) {
      NewRowInUse(c, s, stray.snap, stray.chunk, rk);
    }
  }

  lemma DeliveredRow(c: Client, s: Sys, i: nat, k: RawKey)
    requires Separate(c, s.log) && i < |s.strays| && StrayOk(c, s.log, s.strays[i]) && RowOk(c, s.log, s.table, k)
    ensures RowOk(c, s.log, Delivered(c, s, i).table, k)
    ensures Live(c, s.log, k) && RowOf(c, k) in s.table ==> RowOf(c, k) in Delivered(c, s, i).table
    ensures Live(c, s.log, k) && At(Delivered(c, s, i).table, RowOf(c, k)) != At(s.table, RowOf(c, k)) ==>
              At(Delivered(c, s, i).table, RowOf(c, k)) == Some(Stored(Current(c, s.strays[i].snap, k)))
  {
    if Live(c, s.log, k) {
      hide ServeChunk, RowOf, RowKeyOf, FromSnapshot, Separate, RowOk, Live;
      EntryChange(c, s.log, s.table, s.strays[i].snap, s.strays[i].chunk, k);
    }
  }

  lemma SecureKeepsMarks(c: Client, s: Sys, i: nat, marks: Marks)
    requires Inv(c, s) && Separate(c, s.log) && i < |s.strays| && Secure(c, Delivered(c, s, i))
    requires Consulted(s, marks) && MarksOk(c, s.log, s.table, marks)
    ensures MarksOk(c, s.log, Delivered(c, s, i).table, marks)
  {
    hide Inv, Delivered, Secure, MarkOk, SlotInUse, Separate, WillConsult;
    forall k ensures MarkOk(c, s.log, Delivered(c, s, i).table, marks, k) {
      assert MarkOk(c, s.log, s.table, marks, k);
      SecureKeepsMark(c, s, i, marks, k);
    }
  }

  lemma SecureKeepsMark(c: Client, s: Sys, i: nat, marks: Marks, k: RawKey)
    requires Inv(c, s) && Separate(c, s.log) && i < |s.strays| && Secure(c, Delivered(c, s, i))
    requires Consulted(s, marks) && MarkOk(c, s.log, s.table, marks, k)
    ensures MarkOk(c, s.log, Delivered(c, s, i).table, marks, k)
  {
    hide Inv, ServeChunk, RowOf, SlotOf, Signature, Separate, Next;
    var t := Delivered(c, s, i);
    if Live(c, s.log, k) && SlotOf(c, k) in marks {
      RowStays(c, s, i, k);
      var n: nat :| NotAhead(c, s.log, s.table, k, n) && AckedAs(c, s.log, k, marks[SlotOf(c, k)], n);
      if n == |RowsOf(c.filter, s.log, k)| {
        assert RowsOf(c.filter, s.log, k)[..n] == RowsOf(c.filter, s.log, k);
        assert WillConsult(c, t, marks);
        assert SkipSafeFor(c, t, marks, k);
      }
      assert NotAhead(c, s.log, t.table, k, n);
    }
  }

  lemma RowStays(c: Client, s: Sys, i: nat, k: RawKey)
    requires Inv(c, s) && Separate(c, s.log) && i < |s.strays| && Live(c, s.log, k) && RowOf(c, k) in s.table
    ensures RowOf(c, k) in Delivered(c, s, i).table
  {
    hide Delivered, RowOf, MarksOk, RunOk, FromSnapshot, NoForeignRows, Separate, RowOk, Live;
    assert StrayOk(c, s.log, s.strays[i]) && RowOk(c, s.log, s.table, k);
    DeliveredRow(c, s, i, k);
  }

  lemma DeliveredKeepsSaved(c: Client, s: Sys, i: nat)
    requires Inv(c, s) && Separate(c, s.log) && i < |s.strays| && Secure(c, Delivered(c, s, i))
    ensures forall marks :: marks in s.saved ==> MarksOk(c, s.log, Delivered(c, s, i).table, marks)
    ensures s.run != NoRun ==> MarksOk(c, s.log, Delivered(c, s, i).table, s.run.mem)
  {
    hide RowOk, MarksOk, StrayOk, NoForeignRows, Delivered, Secure, Separate, BoundOk, AckedOk;
    forall marks | Consulted(s, marks) ensures MarksOk(c, s.log, Delivered(c, s, i).table, marks) {
      assert MarksOk(c, s.log, s.table, marks);
      SecureKeepsMarks(c, s, i, marks);
    }
    assert forall marks :: marks in s.saved ==> Consulted(s, marks);
    assert s.run != NoRun ==> Consulted(s, s.run.mem);
  }

  lemma DeliveredKeepsRun(c: Client, s: Sys, i: nat)
    requires Inv(c, s) && Separate(c, s.log) && i < |s.strays| && Secure(c, Delivered(c, s, i))
    ensures RunOk(c, Delivered(c, s, i))
  {
    hide RowOk, MarksOk, StrayOk, NoForeignRows, ServeChunk, Secure, Separate, BoundOk, AckedOk, FromSnapshot;
    DeliveredKeepsSaved(c, s, i);
    if s.run.Sending? {
      forall k ensures BoundOk(c, Delivered(c, s, i), s.run.snap, k) {
        DeliveredKeepsBound(c, s, i, k);
      }
      if s.run.stage == Acked {
        forall b | b in Chunk(c, s.run.pending, s.run.done)
          ensures AckedOk(c, s.log, Delivered(c, s, i).table, s.run.snap, b)
        {
          DeliveredKeepsAcked(c, s, i, b);
        }
      }
    }
  }

  lemma DeliveredKeepsBound(c: Client, s: Sys, i: nat, k: RawKey)
    requires Inv(c, s) && Separate(c, s.log) && i < |s.strays| && s.run.Sending?
    ensures BoundOk(c, Delivered(c, s, i), s.run.snap, k)
  {
    hide RowOk, MarksOk, NoForeignRows, ServeChunk, Separate, AckedOk, FromSnapshot, RowOf;
    assert StrayOk(c, s.log, s.strays[i]) && RowOk(c, s.log, s.table, k) && BoundOk(c, s, s.run.snap, k);
    DeliveredRow(c, s, i, k);
    RowsOfPrefix(c.filter, s.strays[i].snap, s.run.snap, k);
  }

  lemma DeliveredKeepsAcked(c: Client, s: Sys, i: nat, b: Bucket)
    requires Inv(c, s) && Separate(c, s.log) && i < |s.strays| && Secure(c, Delivered(c, s, i))
    requires s.run.Sending? && s.run.stage == Acked && b in Chunk(c, s.run.pending, s.run.done)
    ensures AckedOk(c, s.log, Delivered(c, s, i).table, s.run.snap, b)
  {
    hide Inv, Secure, ServeChunk, RowKeyOf, Buckets, Separate, WillConsult, Stored, RowsOf, Blank, IsMarked;
    var t := Delivered(c, s, i);
    RunFacts(c, s, b);
    var l := KeyOfBucket(c, s.run.snap, s.log, b);
    RowStays(c, s, i, l);
    forall k | Live(c, s.run.snap, k) && b == BucketOf(c.filter, s.run.snap, k) && SameRows(c, s.run.snap, s.log, k)
      ensures t.table[RowKeyOf(c, b.id)] == Stored(b.usage)
    {
      var marks := AboutToBeMarked(c, s, b, k);
      assert b == BucketOf(c.filter, s.log, k);
      BucketsContents(c.filter, s.log);
      SameMaps(c, s, i);
      SecureAt(c, t, marks, b);
    }
  }

  lemma RunFacts(c: Client, s: Sys, b: Bucket)
    requires Inv(c, s) && s.run.Sending? && s.run.stage == Acked && b in Chunk(c, s.run.pending, s.run.done)
    ensures s.run.snap <= s.log && b in Buckets(c.filter, s.run.snap)
    ensures AckedOk(c, s.log, s.table, s.run.snap, b) && !Blank(b.id.model)
    ensures FromSnapshot(c, s.run.snap, s.run.pending)
  {
    hide RowOk, MarksOk, StrayOk, NoForeignRows, BoundOk, Buckets, Blank, BucketOf;
  }

  // What an acknowledged chunk will have in memory once it is marked.
  lemma AboutToBeMarked(c: Client, s: Sys, b: Bucket, k: RawKey) returns (marks: Marks)
    requires Inv(c, s) && Separate(c, s.log)
    requires s.run.Sending? && s.run.stage == Acked && b in Chunk(c, s.run.pending, s.run.done)
    requires Live(c, s.run.snap, k) && b == BucketOf(c.filter, s.run.snap, k)
    ensures WillConsult(c, s, marks) && IsMarked(c, marks, b)
  {
    hide Inv, Buckets, Separate, StateKey, Signature, SignatureMap, MarkAll, RowsOf, Blank, AckedOk;
    RunFacts(c, s, b);
    marks := MarkAll(c, s.run.mem, Chunk(c, s.run.pending, s.run.done), SignatureMap(c, Buckets(c.filter, s.run.snap)));
    ChunkIsMarked(c, s, b, k);
  }

  lemma ChunkIsMarked(c: Client, s: Sys, b: Bucket, k: RawKey)
    requires Separate(c, s.log) && s.run.Sending? && s.run.snap <= s.log && s.run.done <= |s.run.pending|
    requires FromSnapshot(c, s.run.snap, s.run.pending) && b in Chunk(c, s.run.pending, s.run.done)
    requires Live(c, s.run.snap, k) && b == BucketOf(c.filter, s.run.snap, k) && !Blank(b.id.model)
    ensures
      var marks := MarkAll(c, s.run.mem, Chunk(c, s.run.pending, s.run.done),
          SignatureMap(c, Buckets(c.filter, s.run.snap)));
      IsMarked(c, marks, b)
  {
    hide Buckets, Separate, StateKey, Signature, SignatureMap, MarkAll, RowsOf, Blank;
    LiveStays(c, s.run.snap, s.log, k);
    assert StateKey(c.source, b.id) == SlotOf(c, k) && b in Buckets(c.filter, s.run.snap);
    SignatureOfOwner(c, s.log, s.run.snap, b, k);
    MarkAllAt(c, s.run.mem, Chunk(c, s.run.pending, s.run.done), SignatureMap(c, Buckets(c.filter, s.run.snap)),
              StateKey(c.source, b.id));
  }

  lemma LiveStays(c: Client, snap: seq<LogRow>, log: seq<LogRow>, k: RawKey)
    requires snap <= log && Live(c, snap, k)
    ensures Live(c, log, k)
  {
    RowsOfPrefix(c.filter, snap, log, k);
  }

  // In particular a delivery that is on time is harmless.
  lemma OnTimeIsHarmless(c: Client, s: Sys, i: nat)
    requires Inv(c, s) && Separate(c, s.log) && i < |s.strays| && OnTime(c, s, Deliver(i))
    ensures Harmless(c, s, s.strays[i].chunk)
  {
    hide Inv, Harmless, Secure, OnTime, Separate, ServeChunk;
    StepKeepsInv(c, s, Deliver(i));
    InvIsSecure(c, Delivered(c, s, i));
    LateDeliveryExactly(c, s, i);
  }

  /* ---------- whole histories ---------- */

  ghost predicate HarmlessStep(c: Client, s: Sys, e: Event) {
    e.Deliver? && e.i < |s.strays| ==> Harmless(c, s, s.strays[e.i].chunk)
  }

  // Every late delivery of the history is harmless when it happens.
  ghost predicate HarmlessHistory(c: Client, events: seq<Event>) {
    forall n :: 0 <= n < |events| && Exec(c, START, events[..n]).Some? ==>
      HarmlessStep(c, Exec(c, START, events[..n]).value, events[n])
  }

  // The history is secure from its start to its end.
  ghost predicate SecureThroughout(c: Client, events: seq<Event>) {
    forall n :: 0 <= n <= |events| && Exec(c, START, events[..n]).Some? ==>
      Secure(c, Exec(c, START, events[..n]).value)
  }

  lemma {:induction false} ExecPrefix(c: Client, events: seq<Event>, n: nat)
    requires n <= |events| && Exec(c, START, events).Some?
    ensures Exec(c, START, events[..n]).Some?
    ensures Exec(c, START, events[..n]).value.log <= Exec(c, START, events).value.log
    ensures Exec(c, START, events[..n]).value.saved <= Exec(c, START, events).value.saved
  {
    hide Next;
    if n < |events| {
      var front := events[..|events| - 1];
      ExecPrefix(c, front, n);
      assert front[..n] == events[..n];
      StepGrows(c, Exec(c, START, front).value, events[|events| - 1]);
    } else {
      assert events[..n] == events;
    }
  }

  lemma HarmlessStepKeepsInv(c: Client, s: Sys, e: Event)
    requires Inv(c, s) && Next(c, s, e).Some? && HarmlessStep(c, s, e)
    requires Separate(c, Next(c, s, e).value.log)
    ensures Inv(c, Next(c, s, e).value)
  {
    hide Inv, Harmless, Separate, ServeChunk;
    if e.Deliver? {
      HarmlessKeepsInv(c, s, e.i);
    } else {
      StepKeepsInv(c, s, e);
    }
  }

  // While every delivery so far was harmless, the invariant holds.
  lemma {:induction false} HarmlessPrefixKeepsInv(c: Client, events: seq<Event>, n: nat)
    requires n <= |events| && Exec(c, START, events).Some? && Separate(c, Exec(c, START, events).value.log)
    requires forall m :: 0 <= m < n && Exec(c, START, events[..m]).Some? ==>
               HarmlessStep(c, Exec(c, START, events[..m]).value, events[m])
    ensures Exec(c, START, events[..n]).Some? && Inv(c, Exec(c, START, events[..n]).value)
    ensures Separate(c, Exec(c, START, events[..n]).value.log)
    decreases n
  {
    hide Inv, Next, Separate, HarmlessStep;
    ExecPrefix(c, events, n);
    SeparatePrefix(c, Exec(c, START, events[..n]).value.log, Exec(c, START, events).value.log);
    if n == 0 {
      StartInv(c);
    } else {
      HarmlessPrefixKeepsInv(c, events, n - 1);
      assert events[..n][..n - 1] == events[..n - 1];
      HarmlessStepKeepsInv(c, Exec(c, START, events[..n - 1]).value, events[n - 1]);
    }
  }

  lemma HarmlessHistoryKeepsInv(c: Client, history: seq<Event>)
    requires Exec(c, START, history).Some? && HarmlessHistory(c, history)
    requires Separate(c, Exec(c, START, history).value.log)
    ensures Inv(c, Exec(c, START, history).value)
  {
    hide Exec, Inv, Separate, HarmlessStep;
    HarmlessPrefixKeepsInv(c, history, |history|);
    assert history[..|history|] == history;
  }

  // Skip safety: whatever happens to the reporter, its requests and its state file, a bucket
  // that would be skipped as unchanged is on the server with its current value.
  lemma SkipSafety(c: Client, events: seq<Event>)
    requires Exec(c, START, events).Some? && HarmlessHistory(c, events)
    requires Separate(c, Exec(c, START, events).value.log)
    ensures SkipSafe(c, Exec(c, START, events).value)
  {
    hide Inv, SkipSafe, Exec, Separate, HarmlessHistory;
    HarmlessHistoryKeepsInv(c, events);
    InvGivesSkipSafety(c, Exec(c, START, events).value);
  }

  // A state file saved at any time can be restored at any later time without hiding a change.
  lemma StaleStateFilesStaySound(c: Client, events: seq<Event>, n: nat, marks: Marks, k: RawKey)
    requires Exec(c, START, events).Some? && HarmlessHistory(c, events)
    requires Separate(c, Exec(c, START, events).value.log)
    requires n <= |events| && Exec(c, START, events[..n]).Some? && marks in Exec(c, START, events[..n]).value.saved
    ensures SkipSafeFor(c, Exec(c, START, events).value, marks, k)
  {
    hide Inv, SkipSafeFor, Exec, Separate, HarmlessHistory;
    ExecPrefix(c, events, n);
    SkipSafety(c, events);
    assert Consulted(Exec(c, START, events).value, marks);
  }

  // A history without late deliveries is harmless.
  predicate NoDelivery(events: seq<Event>) {
    forall e :: e in events ==> !e.Deliver?
  }

  lemma NoDeliveryIsHarmless(c: Client, events: seq<Event>)
    requires NoDelivery(events)
    ensures HarmlessHistory(c, events)
  {
    hide Exec, Harmless;
    assert forall n :: 0 <= n < |events| ==> events[n] in events;
  }

  lemma HarmlessThen(c: Client, events: seq<Event>, s: Sys, e: Event)
    requires HarmlessHistory(c, events) && Exec(c, START, events) == Some(s) && HarmlessStep(c, s, e)
    ensures HarmlessHistory(c, events + [e])
  {
    hide Exec, HarmlessStep;
    var more := events + [e];
    assert more[..|events|] == events;
    assert forall n :: 0 <= n < |events| ==> more[..n] == events[..n];
  }

  // Late deliveries, exactly: over a log without clashes, a history is secure from start to end
  // if and only if every request that arrives late in it is harmless.
  lemma LateHistoriesExactly(c: Client, events: seq<Event>)
    requires Exec(c, START, events).Some? && Separate(c, Exec(c, START, events).value.log)
    ensures SecureThroughout(c, events) <==> HarmlessHistory(c, events)
  {
    hide Inv, Exec, Next, Separate, Secure, HarmlessStep;
    if HarmlessHistory(c, events) {
      forall n | 0 <= n <= |events| && Exec(c, START, events[..n]).Some?
        ensures Secure(c, Exec(c, START, events[..n]).value)
      {
        HarmlessPrefixKeepsInv(c, events, n);
        InvIsSecure(c, Exec(c, START, events[..n]).value);
      }
    }
    if SecureThroughout(c, events) {
      forall n | 0 <= n < |events| && Exec(c, START, events[..n]).Some?
        ensures HarmlessStep(c, Exec(c, START, events[..n]).value, events[n])
      {
        SecureSoHarmless(c, events, n);
      }
    }
  }

  lemma {:induction false} SecureSoHarmless(c: Client, events: seq<Event>, n: nat)
    requires Exec(c, START, events).Some? && Separate(c, Exec(c, START, events).value.log)
    requires SecureThroughout(c, events) && n < |events| && Exec(c, START, events[..n]).Some?
    ensures HarmlessStep(c, Exec(c, START, events[..n]).value, events[n])
    decreases n
  {
    hide Inv, Exec, Next, Separate, Secure, HarmlessStep;
    forall m | 0 <= m < n && Exec(c, START, events[..m]).Some?
      ensures HarmlessStep(c, Exec(c, START, events[..m]).value, events[m])
    {
      SecureSoHarmless(c, events, m);
    }
    HarmlessPrefixKeepsInv(c, events, n);
    ExecPrefix(c, events, n + 1);
    LastStep(c, events, n);
    SecureStepIsHarmless(c, Exec(c, START, events[..n]).value, events[n]);
  }

  lemma LastStep(c: Client, events: seq<Event>, n: nat)
    requires n < |events| && Exec(c, START, events[..n]).Some?
    ensures Exec(c, START, events[..n + 1]) == Next(c, Exec(c, START, events[..n]).value, events[n])
  {
    hide Next;
    assert events[..n + 1][..n] == events[..n];
  }

  lemma SecureStepIsHarmless(c: Client, s: Sys, e: Event)
    requires Inv(c, s) && Separate(c, s.log) && Next(c, s, e).Some? && Secure(c, Next(c, s, e).value)
    ensures HarmlessStep(c, s, e)
  {
    hide Inv, Next, Separate, Secure, Harmless;
    if e.Deliver? && e.i < |s.strays| {
      LateDeliveryExactly(c, s, e.i);
    }
  }

  // A history whose deliveries are all on time is one of those.
  lemma OnTimeHistoryIsHarmless(c: Client, events: seq<Event>)
    requires Exec(c, START, events).Some? && AllOnTime(c, START, events)
    requires Separate(c, Exec(c, START, events).value.log)
    ensures HarmlessHistory(c, events)
  {
    hide Inv, Exec, Next, Separate, Harmless, OnTime, AllOnTime;
    forall n | 0 <= n < |events| && Exec(c, START, events[..n]).Some?
      ensures HarmlessStep(c, Exec(c, START, events[..n]).value, events[n])
    {
      var s := Exec(c, START, events[..n]).value;
      ExecPrefix(c, events, n);
      SeparatePrefix(c, s.log, Exec(c, START, events).value.log);
      OnTimePrefix(c, events, n);
      StartInv(c);
      ExecKeepsInv(c, START, events[..n]);
      if events[n].Deliver? && events[n].i < |s.strays| {
        OnTimeIsHarmless(c, s, events[n].i);
      }
    }
  }

  lemma {:induction false} OnTimePrefix(c: Client, events: seq<Event>, n: nat)
    requires n < |events| && Exec(c, START, events).Some? && AllOnTime(c, START, events)
    ensures AllOnTime(c, START, events[..n])
    ensures Exec(c, START, events[..n]).Some? && OnTime(c, Exec(c, START, events[..n]).value, events[n])
  {
    hide Next, OnTime;
    ExecPrefix(c, events, n);
    var front := events[..|events| - 1];
    if n < |front| {
      ExecPrefix(c, events, |front|);
      OnTimePrefix(c, front, n);
      assert front[..n] == events[..n];
    }
  }
}
