// One run of the reporter (cc_usage_reporter/cc_usage_reporter/reporter.py) on its state
// file (state.py): compare, send in chunks, mark and save after each acknowledged chunk.
module Reporter {
  import opened Options
  import opened Text
  import opened UsageLog
  import opened Sidecar
  import opened Client
  import opened Protocol

  // What happens to one request: it is handled and answered, handled but the answer is lost,
  // or it never reaches the server.
  datatype Net = Delivered | AnswerLost | NotDelivered

  datatype Summary = Summary(total: nat, changed: nat, skipped: nat, sent: nat, batches: nat)

  /* ---------- the state file ---------- */

  class StateFile {
    var disk: Disk

    constructor ()
      ensures disk == Unreadable
    {
      disk := Unreadable;
    }
  }

  class State {
    const file: StateFile
    var marks: Marks

    constructor (file: StateFile)
      ensures this.file == file && marks == LoadMarks(file.disk, map[])
    {
      this.file := file;
      marks := map[];
      new;
      Load();
    }

    // A file that cannot be read leaves what is in memory.
    method Load()
      modifies this
      ensures marks == LoadMarks(file.disk, old(marks))
    {
      if file.disk.Readable? {
        marks := file.disk.marks;
      }
    }

    // Writes a temporary file and renames it: the file is replaced as a whole.
    method Save()
      modifies file
      ensures file.disk == Readable(marks)
    {
      file.disk := Readable(marks);
    }

    function SignatureAt(slot: string): Option<string>
      reads this
    {
      if slot in marks then Some(marks[slot]) else None
    }

    method Mark(slot: string, signature: string)
      modifies this
      ensures marks == old(marks)[slot := signature]
    {
      marks := marks[slot := signature];
    }
  }

  /* ---------- specification of a run ---------- */

  // How a run leaves things; `ok` is false when it raised an error.
  datatype End = End(marks: Marks, disk: Disk, table: Table, sent: nat, batches: nat, ok: bool)

  function NetAt(net: seq<Net>, n: nat): Net {
    if n < |net| then net[n] else Delivered
  }

  predicate Signed(c: Client, bs: seq<Bucket>, sigs: Marks) {
    forall b :: b in bs ==> StateKey(c.source, b.id) in sigs
  }

  function FirstChunk(c: Client, pending: seq<Bucket>): (chunk: seq<Bucket>)
    requires c.batchSize >= 1 && pending != []
    ensures 1 <= |chunk| <= |pending| && |chunk| <= c.batchSize && chunk == pending[..|chunk|]
  {
    Chunk(c, pending, 0)
  }

  // The chunk is handled, answered, and accepted as a whole.
  predicate GoesThrough(c: Client, chunk: seq<Bucket>, net: seq<Net>, e: End) {
    NetAt(net, e.batches).Delivered? && FullyAccepted(ServeChunk(c, e.table, chunk).0, |chunk|)
  }

  function AfterChunk(c: Client, chunk: seq<Bucket>, sigs: Marks, e: End): End
    requires Signed(c, chunk, sigs)
  {
    var marks := MarkAll(c, e.marks, chunk, sigs);
    End(marks, Readable(marks), ServeChunk(c, e.table, chunk).1, e.sent + |chunk|, e.batches + 1, false)
  }

  function AfterFailure(c: Client, chunk: seq<Bucket>, net: seq<Net>, e: End): End {
    e.(table := if NetAt(net, e.batches).NotDelivered? then e.table else ServeChunk(c, e.table, chunk).1, ok := false)
  }

  function SendAll(c: Client, pending: seq<Bucket>, sigs: Marks, net: seq<Net>, e: End): End
    requires c.batchSize >= 1 && Signed(c, pending, sigs)
    decreases |pending|
  {
    if pending == [] then e.(ok := true)
    else
      var chunk := FirstChunk(c, pending);
      if GoesThrough(c, chunk, net, e) then SendAll(c, pending[|chunk|..], sigs, net, AfterChunk(c, chunk, sigs, e))
      else AfterFailure(c, chunk, net, e)
  }

  function RunSpec(c: Client, log: seq<LogRow>, net: seq<Net>, dryRun: bool,
                   marks: Marks, disk: Disk, table: Table): End
  {
    var bs := Buckets(c.filter, log);
    var pending := Pending(c, bs, marks);
    var idle := End(marks, disk, table, 0, 0, true);
    if pending == [] then (if dryRun then idle else idle.(disk := Readable(marks)))
    else if dryRun then idle
    else if c.batchSize == 0 then idle.(ok := false)
    else if c.batchSize < 0 then idle.(disk := Readable(marks))
    else
      var e := SendAll(c, pending, SignatureMap(c, bs), net, idle);
      if e.ok then e.(disk := Readable(e.marks)) else e
  }

  // The runs that send nothing. A dry run leaves everything as it is; without pending buckets the
  // state file is written all the same; a batch size of zero is an error, a negative one makes
  // no chunk, and the run ends as if it had sent all.
  lemma RunsThatSendNothing(c: Client, log: seq<LogRow>, net: seq<Net>, marks: Marks, disk: Disk, table: Table)
    ensures RunSpec(c, log, net, true, marks, disk, table) == End(marks, disk, table, 0, 0, true)
    ensures
      var pending := Pending(c, Buckets(c.filter, log), marks);
      var e := RunSpec(c, log, net, false, marks, disk, table);
      && (pending == [] ==> e == End(marks, Readable(marks), table, 0, 0, true))
      && (pending != [] && c.batchSize == 0 ==> e == End(marks, disk, table, 0, 0, false))
      && (pending != [] && c.batchSize < 0 ==> e == End(marks, Readable(marks), table, 0, 0, true))
  {
    hide Buckets, Pending;
  }

  /* ---------- the run itself ---------- */

  // The first loop: which buckets to send, and every signature.
  method Compare(c: Client, bs: seq<Bucket>, state: State) returns (pending: seq<Bucket>, sigs: Marks)
    ensures pending == Pending(c, bs, state.marks) && sigs == SignatureMap(c, bs)
  {
    hide StateKey, Signature;
    pending, sigs := [], map[];
    for i := 0 to |bs|
      invariant pending == Pending(c, bs[..i], state.marks) && sigs == SignatureMap(c, bs[..i])
    {
      var b := bs[i];
      assert bs[..i + 1][..i] == bs[..i];
      var sig := Signature(b.usage);
      var slot := StateKey(c.source, b.id);
      sigs := sigs[slot := sig];
      if state.SignatureAt(slot) != Some(sig) {
        pending := pending + [b];
      }
    }
    assert bs[..|bs|] == bs;
  }

  method MarkChunk(c: Client, chunk: seq<Bucket>, sigs: Marks, state: State)
    requires Signed(c, chunk, sigs)
    modifies state
    ensures state.marks == MarkAll(c, old(state.marks), chunk, sigs)
  {
    for j := 0 to |chunk|
      invariant state.marks == MarkAll(c, old(state.marks), chunk[..j], sigs)
    {
      var slot := StateKey(c.source, chunk[j].id);
      assert chunk[..j + 1][..j] == chunk[..j] && chunk[j] in chunk;
      state.Mark(slot, sigs[slot]);
    }
    assert chunk[..|chunk|] == chunk;
  }

  // One HTTP exchange.
  method Post(c: Client, server: Server, chunk: seq<Bucket>, outcome: Net) returns (response: Option<Response>)
    requires server.config == c.config
    modifies server
    ensures outcome.NotDelivered? ==> server.table == old(server.table) && response.None?
    ensures !outcome.NotDelivered? ==> server.table == ServeChunk(c, old(server.table), chunk).1
    ensures outcome.AnswerLost? ==> response.None?
    ensures outcome.Delivered? ==> response == Some(ServeChunk(c, old(server.table), chunk).0)
  {
    hide Serve;
    if outcome.NotDelivered? {
      return None;
    }
    var answer := server.HandleReport(Payload(c, chunk));
    return if outcome.Delivered? then Some(answer) else None;
  }

  // The whole run: what is in memory was read before the lock, and is read again under it.
  method Run(c: Client, rows: seq<LogRow>, net: seq<Net>, dryRun: bool, state: State, server: Server)
      returns (summary: Summary, ok: bool)
    requires server.config == c.config
    modifies state, state.file, server
    ensures
      var marks := LoadMarks(old(state.file.disk), old(state.marks));
      var e := RunSpec(c, rows, net, dryRun, marks, old(state.file.disk), old(server.table));
      && (state.marks, state.file.disk, server.table, ok) == (e.marks, e.disk, e.table, e.ok)
      && summary.sent == e.sent && summary.batches == e.batches
      && summary.total == |Buckets(c.filter, rows)|
      && summary.changed == |Pending(c, Buckets(c.filter, rows), marks)|
      && summary.skipped == summary.total - summary.changed
    ensures dryRun ==> ok && state.file.disk == old(state.file.disk) && server.table == old(server.table)
  {
    hide RunSpec, LoadMarks;
    state.Load();
    summary, ok := RunLocked(c, rows, net, dryRun, state, server);
  }

  method RunLocked(c: Client, rows: seq<LogRow>, net: seq<Net>, dryRun: bool, state: State, server: Server)
      returns (summary: Summary, ok: bool)
    requires server.config == c.config
    modifies state, state.file, server
    ensures
      var e := RunSpec(c, rows, net, dryRun, old(state.marks), old(state.file.disk), old(server.table));
      && (state.marks, state.file.disk, server.table, ok) == (e.marks, e.disk, e.table, e.ok)
      && summary.sent == e.sent && summary.batches == e.batches
      && summary.total == |Buckets(c.filter, rows)|
      && summary.changed == |Pending(c, Buckets(c.filter, rows), old(state.marks))|
      && summary.skipped == summary.total - summary.changed
    ensures dryRun ==>
      && ok && state.marks == old(state.marks) && state.file.disk == old(state.file.disk)
      && server.table == old(server.table) && summary.sent == 0 && summary.batches == 0
  {
    hide StateKey, Signature, ServeChunk, Pending, SignatureMap, Buckets, MarkAll;
    var buckets := ReadDailyModelUsage(c.filter, rows);
    var pending, sigs := Compare(c, buckets, state);
    summary := Summary(|buckets|, |pending|, |buckets| - |pending|, 0, 0);
    if |pending| == 0 {
      if !dryRun {
        state.Save();
      }
      return summary, true;
    }
    if dryRun {
      return summary, true;
    }
    if c.batchSize == 0 {
      return summary, false;
    }
    if c.batchSize > 0 {
      var sent, batches, done := SendPending(c, pending, sigs, net, state, server);
      summary := summary.(sent := sent, batches := batches);
      if !done {
        return summary, false;
      }
    }
    state.Save();
    return summary, true;
  }

  method SendPending(c: Client, pending: seq<Bucket>, sigs: Marks, net: seq<Net>, state: State, server: Server)
      returns (sent: nat, batches: nat, ok: bool)
    requires server.config == c.config && c.batchSize >= 1 && Signed(c, pending, sigs)
    modifies state, state.file, server
    ensures
      var e := SendAll(c, pending, sigs, net,
          End(old(state.marks), old(state.file.disk), old(server.table), 0, 0, true));
      (state.marks, state.file.disk, server.table, sent, batches, ok)
      == (e.marks, e.disk, e.table, e.sent, e.batches, e.ok)
  {
    hide StateKey, ServeChunk, MarkAll, NetAt;
    ghost var e := SendAll(c, pending, sigs, net, End(state.marks, state.file.disk, server.table, 0, 0, true));
    var i := 0;
    sent, batches := 0, 0;
    while i < |pending|
      invariant 0 <= i <= |pending| && Signed(c, pending[i..], sigs)
      invariant SendAll(c, pending[i..], sigs, net,
          End(state.marks, state.file.disk, server.table, sent, batches, i == 0))
             == e
    {
      var chunk := FirstChunk(c, pending[i..]);
      var response := Post(c, server, chunk, NetAt(net, batches));
      if response.None? || !FullyAccepted(response.value, |chunk|) {
        return sent, batches, false;
      }
      batches := batches + 1;
      sent := sent + |chunk|;
      MarkChunk(c, chunk, sigs, state);
      state.Save();
      assert pending[i..][|chunk|..] == pending[i + |chunk|..];
      i := i + |chunk|;
    }
    return sent, batches, true;
  }
}
