// The pure parts of the reporter and its state file (cc_usage_reporter/cc_usage_reporter/
// reporter.py and state.py), and what the sidecar makes of the batches it is sent.
module Client {
  import opened Options
  import opened Text
  import opened UsageLog
  import opened Sidecar

  // One installed reporter together with the sidecar it talks to. `source` is the stripped
  // setting; `user` is what the sidecar resolves the configured name to.
  datatype Client = Client(filter: Filter, source: string, batchSize: int, user: Option<int>, config: Config)

  // The "buckets" entry of the state file: slot to signature.
  type Marks = map<string, string>

  /* ---------- payloads ---------- */

  // A missing request model is sent as null, which decodes as the empty string.
  function ToItem(b: Bucket): Item {
    Item(Day(b.id.day), b.id.app, b.id.model, if b.id.requestModel.Some? then b.id.requestModel.value else "", b.usage)
  }

  // The sidecar's validation has nothing against the bucket.
  predicate ValidBucket(b: Bucket) {
    Acceptable(ToItem(b))
  }

  function Items(chunk: seq<Bucket>): (items: seq<Item>)
    ensures |items| == |chunk|
  {
    seq(|chunk|, i requires 0 <= i < |chunk| => ToItem(chunk[i]))
  }

  function Payload(c: Client, chunk: seq<Bucket>): Report {
    Report(c.user, c.source, "daily", Items(chunk))
  }

  /* ---------- what to send, what to mark ---------- */

  // The buckets whose stored signature is missing or differs.
  function Pending(c: Client, bs: seq<Bucket>, marks: Marks): (pending: seq<Bucket>)
    ensures |pending| <= |bs|
    ensures forall b :: b in pending ==> b in bs
  {
    if bs == [] then []
    else
      var front, b := Pending(c, bs[..|bs| - 1], marks), bs[|bs| - 1];
      if IsMarked(c, marks, b) then front else front + [b]
  }

  predicate IsMarked(c: Client, marks: Marks, b: Bucket) {
    var slot := StateKey(c.source, b.id);
    slot in marks && marks[slot] == Signature(b.usage)
  }

  // The signatures of one run; of two buckets that share a slot the later one wins.
  function SignatureMap(c: Client, bs: seq<Bucket>): (sigs: Marks)
    ensures forall b :: b in bs ==> StateKey(c.source, b.id) in sigs
  {
    if bs == [] then map[]
    else SignatureMap(c, bs[..|bs| - 1])[StateKey(c.source, bs[|bs| - 1].id) := Signature(bs[|bs| - 1].usage)]
  }

  function MarkAll(c: Client, marks: Marks, chunk: seq<Bucket>, sigs: Marks): Marks
    requires forall b :: b in chunk ==> StateKey(c.source, b.id) in sigs
  {
    if chunk == [] then marks
    else
      var slot := StateKey(c.source, chunk[|chunk| - 1].id);
      assert chunk[|chunk| - 1] in chunk;
      MarkAll(c, marks, chunk[..|chunk| - 1], sigs)[slot := sigs[slot]]
  }

  lemma {:induction false} PendingContents(c: Client, bs: seq<Bucket>, marks: Marks, b: Bucket)
    ensures b in Pending(c, bs, marks) <==> b in bs && !IsMarked(c, marks, b)
  {
    hide IsMarked;
    if bs != [] {
      PendingContents(c, bs[..|bs| - 1], marks, b);
    }
  }

  // A slot that one bucket alone uses holds that bucket's signature.
  lemma {:induction false} SignatureMapAt(c: Client, bs: seq<Bucket>, b: Bucket)
    requires b in bs
    requires forall o :: o in bs && o != b ==> StateKey(c.source, o.id) != StateKey(c.source, b.id)
    ensures SignatureMap(c, bs)[StateKey(c.source, b.id)] == Signature(b.usage)
  {
    hide StateKey, Signature;
    var front, last := bs[..|bs| - 1], bs[|bs| - 1];
    if last != b {
      assert b in front;
      SignatureMapAt(c, front, b);
      assert last in bs;
    }
  }

  lemma {:induction false} MarkAllAt(c: Client, marks: Marks, chunk: seq<Bucket>, sigs: Marks, slot: string)
    requires forall b :: b in chunk ==> StateKey(c.source, b.id) in sigs
    ensures (exists b :: b in chunk && StateKey(c.source, b.id) == slot) ==>
              slot in MarkAll(c, marks, chunk, sigs) && slot in sigs
                  && MarkAll(c, marks, chunk, sigs)[slot] == sigs[slot]
    ensures !(exists b :: b in chunk && StateKey(c.source, b.id) == slot) ==>
              (slot in MarkAll(c, marks, chunk, sigs) <==> slot in marks)
              && (slot in marks ==> MarkAll(c, marks, chunk, sigs)[slot] == marks[slot])
  {
    hide StateKey;
    if chunk != [] {
      var front, last := chunk[..|chunk| - 1], chunk[|chunk| - 1];
      MarkAllAt(c, marks, front, sigs, slot);
      assert last in chunk;
      assert forall b :: b in chunk <==> b in front || b == last;
    }
  }

  /* ---------- the server side of a batch ---------- */

  function UserOf(c: Client): int {
    if c.user.Some? then c.user.value else 0
  }

  // The row a bucket is stored in.
  function RowKeyOf(c: Client, id: BucketId): RowKey {
    KeyFor(UserOf(c), EffectiveSource(c.source), ToItem(Bucket(id, NO_USAGE)))
  }

  function ServeChunk(c: Client, table: Table, chunk: seq<Bucket>): (Response, Table) {
    Serve(c.config, table, Payload(c, chunk))
  }

  lemma {:induction false} RowsComeFromBuckets(c: Client, chunk: seq<Bucket>, i: nat)
    requires i < |NormalizedRows(UserOf(c), EffectiveSource(c.source), Items(chunk))|
    ensures var row := NormalizedRows(UserOf(c), EffectiveSource(c.source), Items(chunk))[i];
      exists b :: b in chunk && !Blank(b.id.model) && row == UsageRow(RowKeyOf(c, b.id), Stored(b.usage))
  {
    hide Normalize, KeyFor, Trim, EffectiveSource, Stored;
    var items := Items(chunk);
    var front, last := chunk[..|chunk| - 1], chunk[|chunk| - 1];
    assert items[..|items| - 1] == Items(front);
    var row := NormalizedRows(UserOf(c), EffectiveSource(c.source), items)[i];
    if i < |NormalizedRows(UserOf(c), EffectiveSource(c.source), Items(front))| {
      RowsComeFromBuckets(c, front, i);
      var b :| b in front && !Blank(b.id.model) && row == UsageRow(RowKeyOf(c, b.id), Stored(b.usage));
      assert b in chunk;
    } else {
      RowOfBucket(c, last);
      assert last in chunk;
    }
  }

  lemma RowOfBucket(c: Client, b: Bucket)
    ensures Normalize(UserOf(c), EffectiveSource(c.source), ToItem(b)).Some? ==>
      !Blank(b.id.model)
      && Normalize(UserOf(c), EffectiveSource(c.source), ToItem(b))
         == Some(UsageRow(RowKeyOf(c, b.id), Stored(b.usage)))
  {
    hide Trim, Stored;
    AcceptableExactly(UserOf(c), EffectiveSource(c.source), ToItem(b));
  }

  // A bucket that could have produced the entry `u` of row `rk`.
  ghost predicate StoredFrom(c: Client, chunk: seq<Bucket>, rk: RowKey, u: Option<Usage>) {
    exists b :: b in chunk && !Blank(b.id.model) && RowKeyOf(c, b.id) == rk && u == Some(Stored(b.usage))
  }

  // Serving a batch leaves a row as it was or writes a bucket of the batch into it.
  lemma ServedEntries(c: Client, table: Table, chunk: seq<Bucket>, rk: RowKey)
    ensures At(ServeChunk(c, table, chunk).1, rk) == At(table, rk)
         || StoredFrom(c, chunk, rk, At(ServeChunk(c, table, chunk).1, rk))
  {
    hide Trim, KeyFor, Overwrite, NormalizedRows, Executable, Stored, SourceAllowed;
    var rows := NormalizedRows(UserOf(c), EffectiveSource(c.source), Items(chunk));
    OverwriteValue(table, rows, rk);
    if ValueIn(rows, rk).Some? {
      var i := IndexOfValue(rows, rk);
      RowsComeFromBuckets(c, chunk, i);
      var b :| b in chunk && !Blank(b.id.model) && rows[i] == UsageRow(RowKeyOf(c, b.id), Stored(b.usage));
    }
  }

  // A batch counted as sent is in the table, every bucket of it.
  lemma AcceptedEntries(c: Client, table: Table, chunk: seq<Bucket>, b: Bucket)
    requires FullyAccepted(ServeChunk(c, table, chunk).0, |chunk|)
    requires b in chunk
    ensures !Blank(b.id.model)
    ensures At(ServeChunk(c, table, chunk).1, RowKeyOf(c, b.id)) == Some(Stored(b.usage))
  {
    hide Trim, KeyFor, Overwrite, NormalizedRows, Stored, SourceAllowed, Normalize;
    FullyAcceptedExactly(c.config, table, Payload(c, chunk));
    var items := Items(chunk);
    var rows := RowsFor(UserOf(c), EffectiveSource(c.source), items);
    NormalizedRowsOfAcceptable(UserOf(c), EffectiveSource(c.source), items);
    var i :| 0 <= i < |chunk| && chunk[i] == b;
    assert Acceptable(items[i]);
    assert items[i] == ToItem(b);
    KeyIgnoresUsage(c, b);
    assert rows[i] == UsageRow(RowKeyOf(c, b.id), Stored(b.usage));
    UniqueValue(rows, i);
    OverwriteValue(table, rows, RowKeyOf(c, b.id));
  }

  lemma KeyIgnoresUsage(c: Client, b: Bucket)
    ensures KeyFor(UserOf(c), EffectiveSource(c.source), ToItem(b)) == RowKeyOf(c, b.id)
  {
    hide Trim;
  }
}
