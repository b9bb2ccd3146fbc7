// What a run achieves: progress of failed runs, agreement with the protocol, and convergence.
module Convergence {
  import opened Options
  import opened Text
  import opened UsageLog
  import opened Sidecar
  import opened Client
  import opened Protocol
  import opened Exactness
  import opened Reporter

  /* ---------- the chunks of a run ---------- */

  function Chunks(c: Client, pending: seq<Bucket>): seq<seq<Bucket>>
    requires c.batchSize >= 1
    decreases |pending|
  {
    if pending == [] then [] else [FirstChunk(c, pending)] + Chunks(c, pending[|FirstChunk(c, pending)|..])
  }

  function Flatten(chunks: seq<seq<Bucket>>): seq<Bucket> {
    if chunks == [] then [] else chunks[0] + Flatten(chunks[1..])
  }

  // The chunks put together are the pending list, and each holds 1 to batch_size buckets;
  // only the last can be short.
  lemma {:induction false} ChunksCover(c: Client, pending: seq<Bucket>)
    requires c.batchSize >= 1
    ensures Flatten(Chunks(c, pending)) == pending
    ensures forall i :: 0 <= i < |Chunks(c, pending)| ==> 1 <= |Chunks(c, pending)[i]| <= c.batchSize
    ensures forall i :: 0 <= i < |Chunks(c, pending)| - 1 ==> |Chunks(c, pending)[i]| == c.batchSize
    decreases |pending|
  {
    if pending != [] {
      var first := FirstChunk(c, pending);
      ChunksCover(c, pending[|first|..]);
      assert Chunks(c, pending)[1..] == Chunks(c, pending[|first|..]);
    }
  }

  /* ---------- what acceptance says about a chunk ---------- */

  // The sidecar takes reports of n buckets from this client.
  predicate Takes(c: Client, n: nat) {
    c.user.Some? && SourceAllowed(c.config, EffectiveSource(c.source)) && n <= c.config.maxItems && n <= 5041
  }

  lemma AcceptedMeansFits(c: Client, table: Table, chunk: seq<Bucket>)
    requires FullyAccepted(ServeChunk(c, table, chunk).0, |chunk|)
    ensures Takes(c, |chunk|) && forall b :: b in chunk ==> BucketFits(b)
  {
    hide KeyFor, Trim, Normalize, NormalizedRows, SourceAllowed, Serve, Stored, Acceptable, FitsColumns;
    var r := Payload(c, chunk);
    FullyAcceptedExactly(c.config, table, r);
    forall b | b in chunk ensures BucketFits(b) {
      var i :| 0 <= i < |chunk| && chunk[i] == b;
      assert r.items[i] == ToItem(b);
      assert Acceptable(r.items[i]);
    }
  }

  lemma FittingIsNamed(b: Bucket)
    requires BucketFits(b)
    ensures !Blank(b.id.model)
  {
    hide Trim;
  }

  /* ---------- progress ---------- */

  lemma {:induction false} MarkAllConcat(c: Client, marks: Marks, a: seq<Bucket>, b: seq<Bucket>, sigs: Marks)
    requires Signed(c, a, sigs) && Signed(c, b, sigs)
    ensures Signed(c, a + b, sigs)
    ensures MarkAll(c, marks, a + b, sigs) == MarkAll(c, MarkAll(c, marks, a, sigs), b, sigs)
  {
    hide StateKey;
    if b == [] {
      assert a + b == a;
    } else {
      var front := b[..|b| - 1];
      assert Signed(c, front, sigs);
      MarkAllConcat(c, marks, a, front, sigs);
      assert (a + b)[..|a + b| - 1] == a + front;
    }
  }

  // Everything sending leaves behind is fixed by the number of chunks that went through.
  ghost predicate Progress(c: Client, pending: seq<Bucket>, sigs: Marks, e: End, end: End)
    requires c.batchSize >= 1
  {
    var m, n := end.batches - e.batches, end.sent - e.sent;
    && 0 <= m <= |Chunks(c, pending)| && 0 <= n <= |pending|
    && Flatten(Chunks(c, pending)[..m]) == pending[..n]
    && Signed(c, pending[..n], sigs)
    && (forall b :: b in pending[..n] ==> BucketFits(b))
    && end.marks == MarkAll(c, e.marks, pending[..n], sigs)
    && end.disk == (if m > 0 then Readable(end.marks) else e.disk)
    && (end.ok <==> n == |pending|)
    && (end.ok <==> m == |Chunks(c, pending)|)
  }

  lemma {:induction false} SendAllProgress(c: Client, pending: seq<Bucket>, sigs: Marks, net: seq<Net>, e: End)
    requires c.batchSize >= 1 && Signed(c, pending, sigs)
    ensures Progress(c, pending, sigs, e, SendAll(c, pending, sigs, net, e))
    decreases |pending|
  {
    hide StateKey, ServeChunk, MarkAll, BucketFits, Takes;
    MarkNothing(c, e.marks, sigs);
    assert pending[..0] == [];
    if pending != [] {
      var chunk := FirstChunk(c, pending);
      var rest := pending[|chunk|..];
      assert Chunks(c, pending)[..0] == [];
      if GoesThrough(c, chunk, net, e) {
        assert Signed(c, chunk, sigs) && Signed(c, rest, sigs);
        AcceptedMeansFits(c, e.table, chunk);
        var after := AfterChunk(c, chunk, sigs, e);
        SendAllProgress(c, rest, sigs, net, after);
        ProgressThrough(c, pending, sigs, e, after, SendAll(c, rest, sigs, net, after));
      }
    }
  }

  lemma ProgressThrough(c: Client, pending: seq<Bucket>, sigs: Marks, e: End, after: End, end: End)
    requires c.batchSize >= 1 && Signed(c, pending, sigs) && pending != []
    requires Signed(c, FirstChunk(c, pending), sigs) && after == AfterChunk(c, FirstChunk(c, pending), sigs, e)
    requires Progress(c, pending[|FirstChunk(c, pending)|..], sigs, after, end)
    requires forall b :: b in FirstChunk(c, pending) ==> BucketFits(b)
    ensures Progress(c, pending, sigs, e, end)
  {
    hide StateKey, ServeChunk, MarkAll, BucketFits, NetAt;
    var chunk := FirstChunk(c, pending);
    var rest := pending[|chunk|..];
    var m, n := end.batches - after.batches, end.sent - after.sent;
    TakeChunks(c, pending, m, n);
    assert pending[..|chunk| + n] == chunk + rest[..n];
    hide Chunks, Flatten;
    MarkAllConcat(c, e.marks, chunk, rest[..n], sigs);
    MarkNothing(c, after.marks, sigs);
  }

  lemma TakeChunks(c: Client, pending: seq<Bucket>, m: nat, n: nat)
    requires c.batchSize >= 1 && pending != []
    requires var rest := pending[|FirstChunk(c, pending)|..];
             m <= |Chunks(c, rest)| && n <= |rest| && Flatten(Chunks(c, rest)[..m]) == rest[..n]
    ensures |Chunks(c, pending)| == |Chunks(c, pending[|FirstChunk(c, pending)|..])| + 1
    ensures Flatten(Chunks(c, pending)[..m + 1]) == pending[..|FirstChunk(c, pending)| + n]
    ensures m == 0 ==> n == 0
  {
    hide Chunk, FirstChunk;
    var chunk := FirstChunk(c, pending);
    var rest := pending[|chunk|..];
    assert Chunks(c, pending)[..m + 1] == [chunk] + Chunks(c, rest)[..m];
    assert Chunks(c, pending)[..m + 1][1..] == Chunks(c, rest)[..m];
    assert pending[..|chunk| + n] == chunk + rest[..n];
    if m == 0 {
      assert Flatten(Chunks(c, rest)[..0]) == [];
    }
  }

  lemma MarkNothing(c: Client, marks: Marks, sigs: Marks)
    ensures MarkAll(c, marks, [], sigs) == marks
  {
  }

  /* ---------- what is pending after a run ---------- */

  // Marking part of the pending buckets, and nothing else, leaves the others pending in order.
  lemma {:induction false} PendingSuffix(c: Client, bs: seq<Bucket>, marks: Marks, marks': Marks, n: nat)
    requires n <= |Pending(c, bs, marks)|
    requires forall b :: b in bs ==>
               (IsMarked(c, marks', b) <==> IsMarked(c, marks, b) || b in Pending(c, bs, marks)[..n])
    requires forall i, j :: 0 <= i < j < |bs| && bs[j] in Pending(c, bs, marks)[..n] ==> bs[i] != bs[j]
    ensures Pending(c, bs, marks') == Pending(c, bs, marks)[n..]
  {
    hide IsMarked;
    if bs != [] {
      var front, last := bs[..|bs| - 1], bs[|bs| - 1];
      var p := Pending(c, front, marks);
      var m := if n <= |p| then n else |p|;
      assert Pending(c, bs, marks)[..|p|] == p;
      assert p[..m] == Pending(c, bs, marks)[..m];
      forall b | b in front ensures IsMarked(c, marks', b) <==> IsMarked(c, marks, b) || b in p[..m] {
        var i :| 0 <= i < |front| && front[i] == b;
        assert bs[i] == b && bs[i] in bs;
        if n > |p| {
          assert Pending(c, bs, marks)[..n] == p + [last];
          assert bs[|bs| - 1] in Pending(c, bs, marks)[..n];
        }
      }
      forall i, j | 0 <= i < j < |front| && front[j] in p[..m] ensures front[i] != front[j] {
        assert bs[j] in Pending(c, bs, marks)[..n] by {
          InPrefix(Pending(c, bs, marks), m, n, bs[j]);
        }
        assert bs[i] != bs[j];
      }
      PendingSuffix(c, front, marks, marks', m);
      LastPending(c, bs, marks, marks', n);
    }
  }

  lemma InPrefix<T>(s: seq<T>, m: nat, n: nat, x: T)
    requires m <= n <= |s| && x in s[..m]
    ensures x in s[..n]
  {
    var i :| 0 <= i < m && s[..m][i] == x;
    assert s[..n][i] == x;
  }

  lemma LastPending(c: Client, bs: seq<Bucket>, marks: Marks, marks': Marks, n: nat)
    requires bs != [] && n <= |Pending(c, bs, marks)|
    requires forall b :: b in bs ==>
               (IsMarked(c, marks', b) <==> IsMarked(c, marks, b) || b in Pending(c, bs, marks)[..n])
    requires forall i, j :: 0 <= i < j < |bs| && bs[j] in Pending(c, bs, marks)[..n] ==> bs[i] != bs[j]
    ensures
      var p := Pending(c, bs[..|bs| - 1], marks);
      var last := bs[|bs| - 1];
      IsMarked(c, marks', last) <==> IsMarked(c, marks, last) || n > |p|
  {
    hide IsMarked;
    var front, last := bs[..|bs| - 1], bs[|bs| - 1];
    var p, q := Pending(c, front, marks), Pending(c, bs, marks);
    assert last in bs;
    if n > |p| {
      assert q[..n] == p + [last];
      assert last in q[..n];
    } else {
      assert q[..n] == p[..n];
      assert last in p[..n] ==> last in front;
      assert last in front ==> exists i :: 0 <= i < |bs| - 1 && bs[i] == last;
    }
  }

  lemma CountTwice<T>(s: seq<T>, i: nat, j: nat)
    requires i < j < |s| && s[i] == s[j]
    ensures multiset(s)[s[i]] >= 2
  {
    assert s == s[..i] + [s[i]] + s[i + 1..j] + [s[j]] + s[j + 1..];
  }

  lemma {:induction false} CountOnce<T>(s: seq<T>, x: T)
    requires forall i, j :: 0 <= i < j < |s| && s[i] == x ==> s[j] != x
    ensures multiset(s)[x] <= 1
  {
    if s != [] {
      CountOnce(s[..|s| - 1], x);
      assert s == s[..|s| - 1] + [s[|s| - 1]];
    }
  }

  // A bucket with a model name shares its slot with no other, and is listed once.
  lemma NamedBucketAlone(c: Client, log: seq<LogRow>, b: Bucket)
    requires Separate(c, log) && b in Buckets(c.filter, log) && !Blank(b.id.model)
    ensures forall o :: o in Buckets(c.filter, log) && o != b ==> StateKey(c.source, o.id) != StateKey(c.source, b.id)
    ensures forall i, j :: 0 <= i < j < |Buckets(c.filter, log)| && Buckets(c.filter, log)[j] == b ==>
              Buckets(c.filter, log)[i] != b
  {
    hide StateKey, RowKeyOf, Sorted, Blank;
    var bs := Buckets(c.filter, log);
    BucketsContents(c.filter, log);
    var k :| RowsOf(c.filter, log, k) != [] && b == BucketOf(c.filter, log, k);
    assert Live(c, log, k);
    forall o | o in bs && o != b ensures StateKey(c.source, o.id) != StateKey(c.source, b.id) {
      if StateKey(c.source, o.id) == StateKey(c.source, b.id) {
        SlotOwner(c, log, log, o, k);
      }
    }
    ListedOnce(c, log, b);
    forall i, j | 0 <= i < j < |bs| && bs[j] == b ensures bs[i] != b {
      if bs[i] == b {
        CountTwice(bs, i, j);
      }
    }
  }

  lemma ListedOnce(c: Client, log: seq<LogRow>, b: Bucket)
    requires Separate(c, log) && !Blank(b.id.model)
    ensures multiset(Buckets(c.filter, log))[b] <= 1
  {
    hide StateKey, RowKeyOf, Blank, RowsOf, Total;
    var keys := FirstSeen(c.filter, log);
    FirstSeenKeys(c.filter, log);
    FirstSeenOnce(c.filter, log);
    var us := BucketsOf(c.filter, log, keys);
    forall i, j | 0 <= i < j < |us| && us[i] == b ensures us[j] != b {
      assert keys[i] in keys && keys[j] in keys;
      assert Live(c, log, keys[i]) && Live(c, log, keys[j]);
      assert us[i].id == IdOf(keys[i]) && us[j].id == IdOf(keys[j]);
      assert !Clash(c, keys[i], keys[j]);
    }
    CountOnce(us, b);
  }

  // Which buckets count as sent after marking some that have model names.
  lemma MarkedAfter(c: Client, log: seq<LogRow>, marks: Marks, sent: seq<Bucket>, b: Bucket)
    requires Separate(c, log) && b in Buckets(c.filter, log)
    requires forall o :: o in sent ==> o in Buckets(c.filter, log) && !Blank(o.id.model)
    ensures Signed(c, sent, SignatureMap(c, Buckets(c.filter, log)))
    ensures IsMarked(c, MarkAll(c, marks, sent, SignatureMap(c, Buckets(c.filter, log))), b)
       <==> (IsMarked(c, marks, b) && forall o :: o in sent ==> StateKey(c.source, o.id) != StateKey(c.source, b.id))
            || b in sent
  {
    hide StateKey, Buckets, Blank, Signature, SignatureMap, MarkAll;
    var bs := Buckets(c.filter, log);
    var sigs := SignatureMap(c, bs);
    MarkAllAt(c, marks, sent, sigs, StateKey(c.source, b.id));
    if exists o :: o in sent && StateKey(c.source, o.id) == StateKey(c.source, b.id) {
      var o :| o in sent && StateKey(c.source, o.id) == StateKey(c.source, b.id);
      NamedBucketAlone(c, log, o);
      SignatureMapAt(c, bs, o);
    }
  }

  // A run that fails has recorded exactly the chunks that went through, and a later run on
  // the same log takes up exactly the remaining buckets, in the same order.
  lemma PrefixProgress(c: Client, log: seq<LogRow>, net: seq<Net>, marks: Marks, disk: Disk, table: Table)
    requires Separate(c, log) && c.batchSize >= 1
    ensures
      var pending := Pending(c, Buckets(c.filter, log), marks);
      var e := RunSpec(c, log, net, false, marks, disk, table);
      && e.sent <= |pending| && e.batches <= |Chunks(c, pending)|
      && pending[..e.sent] == Flatten(Chunks(c, pending)[..e.batches])
      && (e.ok <==> e.sent == |pending|)
      && (e.disk == if e.ok || e.batches > 0 then Readable(e.marks) else disk)
      && Pending(c, Buckets(c.filter, log), e.marks) == pending[e.sent..]
  {
    hide StateKey, Buckets, Blank, Signature, SignatureMap, MarkAll, ServeChunk, SendAll, BucketFits;
    var bs := Buckets(c.filter, log);
    var pending := Pending(c, bs, marks);
    var sigs := SignatureMap(c, bs);
    var e := RunSpec(c, log, net, false, marks, disk, table);
    if pending != [] {
      var start := End(marks, disk, table, 0, 0, true);
      SendAllProgress(c, pending, sigs, net, start);
      var sent := pending[..e.sent];
      forall b | b in sent ensures !Blank(b.id.model) {
        FittingIsNamed(b);
      }
      forall b | b in bs ensures IsMarked(c, e.marks, b) <==> IsMarked(c, marks, b) || b in sent {
        MarkedAfter(c, log, marks, sent, b);
        if IsMarked(c, marks, b) {
          SentWerePending(c, log, marks, sent, b);
        }
      }
      forall i, j | 0 <= i < j < |bs| && bs[j] in sent ensures bs[i] != bs[j] {
        NamedBucketAlone(c, log, bs[j]);
      }
      PendingSuffix(c, bs, marks, e.marks, e.sent);
    }
  }

  // An invalid bucket holds up every bucket behind it, run after run.
  lemma InvalidBucketBlocks(c: Client, log: seq<LogRow>, net: seq<Net>, marks: Marks, disk: Disk, table: Table, i: nat)
    requires c.batchSize >= 1
    requires i < |Pending(c, Buckets(c.filter, log), marks)|
        && !BucketFits(Pending(c, Buckets(c.filter, log), marks)[i])
    ensures !RunSpec(c, log, net, false, marks, disk, table).ok
    ensures RunSpec(c, log, net, false, marks, disk, table).sent <= i
  {
    hide StateKey, Buckets, Pending, SignatureMap, MarkAll, ServeChunk, SendAll, BucketFits;
    var pending := Pending(c, Buckets(c.filter, log), marks);
    var start := End(marks, disk, table, 0, 0, true);
    SendAllProgress(c, pending, SignatureMap(c, Buckets(c.filter, log)), net, start);
    var sent := RunSpec(c, log, net, false, marks, disk, table).sent;
    assert forall j :: 0 <= j < sent ==> pending[..sent][j] == pending[j];
  }

  lemma SentWerePending(c: Client, log: seq<LogRow>, marks: Marks, sent: seq<Bucket>, b: Bucket)
    requires Separate(c, log) && b in Buckets(c.filter, log) && IsMarked(c, marks, b)
    requires forall o :: o in sent ==> o in Pending(c, Buckets(c.filter, log), marks) && !Blank(o.id.model)
    ensures forall o :: o in sent ==> StateKey(c.source, o.id) != StateKey(c.source, b.id)
  {
    hide StateKey, Buckets, Blank, IsMarked;
    forall o | o in sent ensures StateKey(c.source, o.id) != StateKey(c.source, b.id) {
      PendingContents(c, Buckets(c.filter, log), marks, o);
      NamedBucketAlone(c, log, o);
    }
  }

  /* ---------- a run is a path of the protocol ---------- */

  lemma ChunkIsFirst(c: Client, pending: seq<Bucket>, done: nat)
    requires c.batchSize >= 1 && done < |pending|
    ensures Chunk(c, pending, done) == FirstChunk(c, pending[done..])
  {
    if done + c.batchSize <= |pending| {
      assert pending[done..][..c.batchSize] == pending[done..done + c.batchSize];
    }
  }

  lemma ChunkThroughRefines(c: Client, s: Sys, sigs: Marks, net: seq<Net>, e: End) returns (events: seq<Event>, t: Sys)
    requires s.run.Sending? && s.run.stage == Ready && s.run.snap == s.log && s.run.done < |s.run.pending|
        && c.batchSize >= 1
    requires sigs == SignatureMap(c, Buckets(c.filter, s.log))
    requires e.marks == s.run.mem && e.disk == s.disk && e.table == s.table
    requires Signed(c, FirstChunk(c, s.run.pending[s.run.done..]), sigs)
    requires GoesThrough(c, FirstChunk(c, s.run.pending[s.run.done..]), net, e)
    ensures
      var chunk := FirstChunk(c, s.run.pending[s.run.done..]);
      var after := AfterChunk(c, chunk, sigs, e);
      && Exec(c, s, events) == Some(t) && (forall x :: x in events ==> !x.Deliver?)
      && t.log == s.log && t.disk == after.disk && t.table == after.table
      && t.run == Sending(after.marks, s.log, s.run.pending, s.run.done + |chunk|, Ready)
  {
    hide StateKey, Buckets, SignatureMap, MarkAll, ServeChunk, Exec;
    var chunk := FirstChunk(c, s.run.pending[s.run.done..]);
    ChunkIsFirst(c, s.run.pending, s.run.done);
    var marks := MarkAll(c, s.run.mem, chunk, sigs);
    var table := ServeChunk(c, s.table, chunk).1;
    var s1 := s.(run := s.run.(stage := InFlight));
    var s2 := s.(table := table, run := s.run.(stage := Acked));
    var s3 := s.(table := table, run := s.run.(mem := marks, stage := Marked));
    t := s.(table := table, disk := Readable(marks), saved := s.saved + {marks},
            run := Sending(marks, s.log, s.run.pending, s.run.done + |chunk|, Ready));
    ExecOne(c, s, Send);
    ExecThen(c, s, [Send], s1, Respond(false));
    ExecThen(c, s, [Send] + [Respond(false)], s2, Mark);
    ExecThen(c, s, [Send] + [Respond(false)] + [Mark], s3, Save);
    events := [Send] + [Respond(false)] + [Mark] + [Save];
  }

  lemma ChunkFailedRefines(c: Client, s: Sys, net: seq<Net>, e: End) returns (events: seq<Event>, t: Sys)
    requires s.run.Sending? && s.run.stage == Ready && s.run.done < |s.run.pending| && c.batchSize >= 1
    requires e.marks == s.run.mem && e.disk == s.disk && e.table == s.table
    requires !GoesThrough(c, FirstChunk(c, s.run.pending[s.run.done..]), net, e)
    ensures
      var after := AfterFailure(c, FirstChunk(c, s.run.pending[s.run.done..]), net, e);
      && Exec(c, s, events) == Some(t) && (forall x :: x in events ==> !x.Deliver?)
      && t.log == s.log && t.disk == after.disk && t.table == after.table && t.run == NoRun
  {
    hide StateKey, ServeChunk, Exec, FullyAccepted;
    ChunkIsFirst(c, s.run.pending, s.run.done);
    var s1 := s.(run := s.run.(stage := InFlight));
    ExecOne(c, s, Send);
    var e2 := match NetAt(net, e.batches)
      case NotDelivered => GiveUp
      case AnswerLost => Respond(true)
      case Delivered => Respond(false);
    ExecThen(c, s, [Send], s1, e2);
    events := [Send] + [e2];
    t := Next(c, s1, e2).value;
  }

  lemma {:induction false} SendAllRefines(c: Client, s: Sys, sigs: Marks, net: seq<Net>, e: End)
    returns (events: seq<Event>, t: Sys)
    requires s.run.Sending? && s.run.stage == Ready && s.run.snap == s.log && s.run.done <= |s.run.pending|
        && c.batchSize >= 1
    requires sigs == SignatureMap(c, Buckets(c.filter, s.log))
    requires e.marks == s.run.mem && e.disk == s.disk && e.table == s.table
    requires Signed(c, s.run.pending[s.run.done..], sigs)
    ensures
      var end := SendAll(c, s.run.pending[s.run.done..], sigs, net, e);
      && Exec(c, s, events) == Some(t) && (forall x :: x in events ==> !x.Deliver?)
      && t.log == s.log && t.disk == end.disk && t.table == end.table
      && t.run == if end.ok then Sending(end.marks, s.log, s.run.pending, |s.run.pending|, Ready) else NoRun
    decreases |s.run.pending| - s.run.done
  {
    hide StateKey, Buckets, SignatureMap, MarkAll, ServeChunk, GoesThrough, Exec, Next;
    var rest := s.run.pending[s.run.done..];
    if rest == [] {
      events, t := [], s;
      ExecNothing(c, s);
    } else {
      var chunk := FirstChunk(c, rest);
      assert Signed(c, chunk, sigs) && Signed(c, rest[|chunk|..], sigs);
      if GoesThrough(c, chunk, net, e) {
        var first, u := ChunkThroughRefines(c, s, sigs, net, e);
        assert s.run.pending[u.run.done..] == rest[|chunk|..];
        var more, v := SendAllRefines(c, u, sigs, net, AfterChunk(c, chunk, sigs, e));
        ExecConcat(c, s, first, more);
        events, t := first + more, v;
      } else {
        events, t := ChunkFailedRefines(c, s, net, e);
      }
    }
  }

  lemma ExecNothing(c: Client, s: Sys)
    ensures Exec(c, s, []) == Some(s)
  {
  }

  // A run of the reporter, whatever the network does to its requests, is a path of the
  // protocol without late deliveries.
  lemma RunRefinesProtocol(c: Client, s: Sys, early: Marks, net: seq<Net>) returns (events: seq<Event>, t: Sys)
    requires s.run == NoRun && early in s.saved
    ensures
      var e := RunSpec(c, s.log, net, false, LoadMarks(s.disk, early), s.disk, s.table);
      && Exec(c, s, events) == Some(t) && (forall x :: x in events ==> !x.Deliver?)
      && t.log == s.log && t.run == NoRun && t.disk == e.disk && t.table == e.table
  {
    hide StateKey, Buckets, SignatureMap, ServeChunk, Pending, SendAll, Exec;
    var mem := LoadMarks(s.disk, early);
    var bs := Buckets(c.filter, s.log);
    var pending := Pending(c, bs, mem);
    var u := s.(run := Sending(mem, s.log, pending, 0, Ready));
    ExecOne(c, s, Begin(early));
    ExecThen(c, s, [Begin(early)], s.(run := Loaded(mem)), Read);
    var opening := [Begin(early)] + [Read];
    if pending == [] || c.batchSize < 0 {
      ExecThen(c, s, opening, u, Finish);
      events := opening + [Finish];
    } else if c.batchSize == 0 {
      ExecThen(c, s, opening, u, Crash);
      events := opening + [Crash];
    } else {
      assert pending[0..] == pending;
      var more, v := SendAllRefines(c, u, SignatureMap(c, bs), net, End(mem, s.disk, s.table, 0, 0, true));
      ExecConcat(c, s, opening, more);
      events := opening + more;
      if v.run.Sending? {
        ExecThen(c, s, events, v, Finish);
        events := events + [Finish];
      }
    }
    t := ExecResult(c, s, events);
  }

  lemma ExecResult(c: Client, s: Sys, events: seq<Event>) returns (t: Sys)
    requires Exec(c, s, events).Some?
    ensures Exec(c, s, events) == Some(t)
  {
    t := Exec(c, s, events).value;
  }

  /* ---------- convergence ---------- */

  // The rows of this client are exactly the aggregate of its log: none missing, none stale,
  // none extra.
  ghost predicate InSync(c: Client, log: seq<LogRow>, table: Table) {
    && (forall k :: Live(c, log, k) ==> At(table, RowOf(c, k)) == Some(Stored(Current(c, log, k))))
    && (forall rk :: rk in table ==> RowInUse(c, log, rk))
  }

  // What can be checked before a run: nothing to send, or a positive batch size, a sidecar
  // that takes batches of that size, and valid buckets.
  predicate Reportable(c: Client, pending: seq<Bucket>) {
    pending == [] ||
    (c.batchSize >= 1 && Takes(c, |FirstChunk(c, pending)|) && forall b :: b in pending ==> BucketFits(b))
  }

  // Two stored buckets of one log do not share a row.
  lemma RowsDiffer(c: Client, log: seq<LogRow>, a: Bucket, b: Bucket)
    requires Separate(c, log) && a in Buckets(c.filter, log) && b in Buckets(c.filter, log)
    requires !Blank(a.id.model) && a != b
    ensures RowKeyOf(c, a.id) != RowKeyOf(c, b.id)
  {
    hide StateKey, RowKeyOf, Sorted, BucketsOf, Blank;
    BucketsContents(c.filter, log);
    var k :| RowsOf(c.filter, log, k) != [] && a == BucketOf(c.filter, log, k);
    var l :| RowsOf(c.filter, log, l) != [] && b == BucketOf(c.filter, log, l);
    assert Live(c, log, k) && Live(c, log, l) && k != l;
    assert !Clash(c, k, l);
    assert k.model == a.id.model;
  }

  // End to end: a chunk of valid buckets is accepted as a whole, so the reporter never sees a
  // partial failure.
  lemma ValidChunkAccepted(c: Client, log: seq<LogRow>, table: Table, chunk: seq<Bucket>)
    requires Separate(c, log) && chunk != [] && Takes(c, |chunk|)
    requires NoDuplicates(chunk) && forall b :: b in chunk ==> b in Buckets(c.filter, log) && BucketFits(b)
    ensures FullyAccepted(ServeChunk(c, table, chunk).0, |chunk|)
  {
    hide Buckets, KeyFor, Trim, Normalize, NormalizedRows, SourceAllowed, Serve, Stored, Acceptable, FitsColumns;
    var r := Payload(c, chunk);
    FullyAcceptedExactly(c.config, table, r);
    forall i | 0 <= i < |chunk| ensures Acceptable(r.items[i]) && FitsColumns(Stored(r.items[i].usage)) {
      assert r.items[i] == ToItem(chunk[i]) && chunk[i] in chunk;
    }
    forall i, j | 0 <= i < j < |chunk|
      ensures KeyFor(UserOf(c), EffectiveSource(c.source), r.items[i]) != KeyFor(UserOf(c), EffectiveSource(c.source),
          r.items[j])
    {
      assert r.items[i] == ToItem(chunk[i]) && r.items[j] == ToItem(chunk[j]);
      assert chunk[i] in chunk && chunk[j] in chunk;
      KeyIgnoresUsage(c, chunk[i]);
      KeyIgnoresUsage(c, chunk[j]);
      FittingIsNamed(chunk[i]);
      RowsDiffer(c, log, chunk[i], chunk[j]);
    }
  }

  lemma {:induction false} SendAllSucceeds(c: Client, log: seq<LogRow>, pending: seq<Bucket>, sigs: Marks, e: End)
    requires Separate(c, log) && c.batchSize >= 1 && Signed(c, pending, sigs)
    requires pending != [] ==> Takes(c, |FirstChunk(c, pending)|)
    requires NoDuplicates(pending) && forall b :: b in pending ==> b in Buckets(c.filter, log) && BucketFits(b)
    ensures SendAll(c, pending, sigs, [], e).ok
    decreases |pending|
  {
    hide StateKey, Buckets, MarkAll, ServeChunk, BucketFits, SourceAllowed;
    if pending != [] {
      var chunk := FirstChunk(c, pending);
      ValidChunkAccepted(c, log, e.table, chunk);
      assert Signed(c, chunk, sigs) && Signed(c, pending[|chunk|..], sigs);
      SendAllSucceeds(c, log, pending[|chunk|..], sigs, AfterChunk(c, chunk, sigs, e));
    }
  }

  lemma {:induction false} SuccessNeedsFits(c: Client, pending: seq<Bucket>, sigs: Marks, net: seq<Net>, e: End)
    requires c.batchSize >= 1 && Signed(c, pending, sigs) && SendAll(c, pending, sigs, net, e).ok
    ensures pending != [] ==> Takes(c, |FirstChunk(c, pending)|)
    ensures forall b :: b in pending ==> BucketFits(b)
    decreases |pending|
  {
    hide StateKey, MarkAll, ServeChunk, BucketFits, SourceAllowed;
    if pending != [] {
      var chunk := FirstChunk(c, pending);
      AcceptedMeansFits(c, e.table, chunk);
      assert Signed(c, chunk, sigs) && Signed(c, pending[|chunk|..], sigs);
      SuccessNeedsFits(c, pending[|chunk|..], sigs, net, AfterChunk(c, chunk, sigs, e));
      assert forall b :: b in pending ==> b in chunk || b in pending[|chunk|..] by {
        assert pending == chunk + pending[|chunk|..];
      }
    }
  }

  lemma {:induction false} PendingOnce(c: Client, bs: seq<Bucket>, marks: Marks)
    requires forall i, j :: 0 <= i < j < |bs| && bs[j] in Pending(c, bs, marks) ==> bs[i] != bs[j]
    ensures NoDuplicates(Pending(c, bs, marks))
  {
    hide IsMarked;
    if bs != [] {
      var front, last := bs[..|bs| - 1], bs[|bs| - 1];
      forall i, j | 0 <= i < j < |front| && front[j] in Pending(c, front, marks) ensures front[i] != front[j] {
        assert bs[i] == front[i] && bs[j] == front[j];
      }
      PendingOnce(c, front, marks);
      if last in front {
        var i :| 0 <= i < |front| && front[i] == last;
        assert bs[i] == bs[|bs| - 1];
      }
    }
  }

  lemma ReportablePendingOnce(c: Client, log: seq<LogRow>, marks: Marks)
    requires Separate(c, log) && forall b :: b in Pending(c, Buckets(c.filter, log), marks) ==> BucketFits(b)
    ensures NoDuplicates(Pending(c, Buckets(c.filter, log), marks))
  {
    hide Buckets, BucketFits, IsMarked;
    var bs := Buckets(c.filter, log);
    forall i, j | 0 <= i < j < |bs| && bs[j] in Pending(c, bs, marks) ensures bs[i] != bs[j] {
      FittingIsNamed(bs[j]);
      NamedBucketAlone(c, log, bs[j]);
    }
    PendingOnce(c, bs, marks);
  }

  // When nothing is left pending, the table is in sync.
  lemma NothingPendingMeansInSync(c: Client, s: Sys, marks: Marks)
    requires Inv(c, s) && marks in s.saved && Pending(c, Buckets(c.filter, s.log), marks) == []
    ensures InSync(c, s.log, s.table)
  {
    hide StateKey, RowKeyOf, RowOk, MarksOk, RunOk, StrayOk, BucketsOf, Sorted, Pending, Signature, Stored;
    InvGivesSkipSafety(c, s);
    forall k | Live(c, s.log, k) ensures At(s.table, RowOf(c, k)) == Some(Stored(Current(c, s.log, k))) {
      BucketsContents(c.filter, s.log);
      var b := BucketOf(c.filter, s.log, k);
      assert b in Buckets(c.filter, s.log);
      PendingContents(c, Buckets(c.filter, s.log), marks, b);
      assert IsMarked(c, marks, b);
      assert Consulted(s, marks) && SkipSafeFor(c, s, marks, k);
    }
  }

  // Convergence: from any state the protocol can be in, an error-free run over the log ends
  // well with the table in sync and nothing left to send, exactly if its pending buckets
  // were reportable; the next run then sends nothing.
  lemma ConvergesExactly(c: Client, s: Sys, early: Marks)
    requires Inv(c, s) && Separate(c, s.log) && s.run == NoRun && early in s.saved
    ensures
      var marks := LoadMarks(s.disk, early);
      var e := RunSpec(c, s.log, [], false, marks, s.disk, s.table);
      (e.ok && InSync(c, s.log, e.table) && Pending(c, Buckets(c.filter, s.log), e.marks) == [])
      <==> Reportable(c, Pending(c, Buckets(c.filter, s.log), marks))
  {
    hide Inv, StateKey, Buckets, SignatureMap, Pending, SendAll, BucketFits, Takes, InSync, Separate;
    var marks := LoadMarks(s.disk, early);
    var bs := Buckets(c.filter, s.log);
    var pending := Pending(c, bs, marks);
    var e := RunSpec(c, s.log, [], false, marks, s.disk, s.table);
    var start := End(marks, s.disk, s.table, 0, 0, true);
    if Reportable(c, pending) {
      if pending != [] {
        ReportablePendingOnce(c, s.log, marks);
        SendAllSucceeds(c, s.log, pending, SignatureMap(c, bs), start);
        PrefixProgress(c, s.log, [], marks, s.disk, s.table);
      }
      assert e.ok && Pending(c, bs, e.marks) == [] && e.disk == Readable(e.marks);
      var events, t := RunRefinesProtocol(c, s, early, []);
      AfterCleanRun(c, s, events, t, e.marks);
    } else if c.batchSize >= 1 && e.ok {
      SuccessNeedsFits(c, pending, SignatureMap(c, bs), [], start);
    }
  }

  lemma AfterCleanRun(c: Client, s: Sys, events: seq<Event>, t: Sys, marks: Marks)
    requires Inv(c, s) && Separate(c, s.log)
    requires Exec(c, s, events) == Some(t) && forall x :: x in events ==> !x.Deliver?
    requires t.log == s.log && t.disk == Readable(marks) && Pending(c, Buckets(c.filter, t.log), marks) == []
    ensures InSync(c, t.log, t.table)
  {
    hide Exec, StateKey, Buckets, Pending, RowOk, MarksOk, RunOk, StrayOk, InSync, Separate;
    NoDeliveryIsOnTime(c, s, events);
    ExecKeepsInv(c, s, events);
    NothingPendingMeansInSync(c, t, marks);
  }
}
