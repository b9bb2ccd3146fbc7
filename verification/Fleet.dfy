// Several machines reporting to one sidecar, each with its own log, state file and source
// (cc_usage_reporter/README.md:92-119 and the conflict key in sidecar/main.go:449).
module Fleet {
  import opened Options
  import opened Text
  import opened UsageLog
  import opened Sidecar
  import opened Client
  import opened Protocol
  import opened Exactness
  import opened Convergence
  import opened LateDelivery
  import opened Acceptance

  // Everything of one installation but the shared table.
  datatype Machine = Machine(log: seq<LogRow>, disk: Disk, saved: set<Marks>, run: Run, strays: seq<Stray>)

  datatype Fleet = Fleet(machines: seq<Machine>, table: Table)

  // Machine i takes a step.
  datatype Turn = Turn(i: nat, e: Event)

  const NEW_MACHINE: Machine := Machine([], Unreadable, {map[]}, NoRun, [])

  function With(m: Machine, table: Table): Sys {
    Sys(m.log, m.disk, m.saved, table, m.run, m.strays)
  }

  function Without(s: Sys): Machine {
    Machine(s.log, s.disk, s.saved, s.run, s.strays)
  }

  function FleetStart(clients: seq<Client>): Fleet {
    Fleet(seq(|clients|, i => NEW_MACHINE), map[])
  }

  function Take(clients: seq<Client>, f: Fleet, turn: Turn): Option<Fleet> {
    if turn.i < |clients| && turn.i < |f.machines| then
      var next := Next(clients[turn.i], With(f.machines[turn.i], f.table), turn.e);
      if next.Some? then Some(Fleet(f.machines[turn.i := Without(next.value)], next.value.table)) else None
    else None
  }

  function TakeAll(clients: seq<Client>, f: Fleet, turns: seq<Turn>): Option<Fleet> {
    if turns == [] then Some(f)
    else
      var before := TakeAll(clients, f, turns[..|turns| - 1]);
      if before.Some? then Take(clients, before.value, turns[|turns| - 1]) else None
  }

  // The turns of machine i, as if it were alone.
  function EventsOf(turns: seq<Turn>, i: nat): seq<Event> {
    if turns == [] then []
    else if turns[|turns| - 1].i == i then EventsOf(turns[..|turns| - 1], i) + [turns[|turns| - 1].e]
    else EventsOf(turns[..|turns| - 1], i)
  }

  /* ---------- each machine owns its rows ---------- */

  predicate Owns(c: Client, rk: RowKey) {
    rk.user == UserOf(c) && rk.source == EffectiveSource(c.source)
  }

  function Own(c: Client, table: Table): Table {
    map rk | rk in table && Owns(c, rk) :: table[rk]
  }

  // Every user uses a source of his own on each machine, and all talk to the same sidecar.
  ghost predicate DistinctSources(clients: seq<Client>) {
    forall i, j :: 0 <= i < j < |clients| ==>
      UserOf(clients[i]) != UserOf(clients[j])
          || EffectiveSource(clients[i].source) != EffectiveSource(clients[j].source)
  }

  lemma RowKeyIsOwned(c: Client, id: BucketId)
    ensures Owns(c, RowKeyOf(c, id))
  {
    hide Trim;
  }

  // The sidecar's answer does not depend on what is stored.
  lemma AnswerIgnoresTable(c: Client, s: Table, t: Table, chunk: seq<Bucket>)
    ensures ServeChunk(c, s, chunk).0 == ServeChunk(c, t, chunk).0
  {
    hide Trim, Overwrite, NormalizedRows, Executable, SourceAllowed;
  }

  // The new entry of a row depends on its old entry only.
  lemma EntryIsLocal(c: Client, s: Table, t: Table, chunk: seq<Bucket>, rk: RowKey)
    requires At(s, rk) == At(t, rk)
    ensures At(ServeChunk(c, s, chunk).1, rk) == At(ServeChunk(c, t, chunk).1, rk)
  {
    hide Trim, Overwrite, NormalizedRows, Executable, SourceAllowed, ValueIn;
    var rows := NormalizedRows(UserOf(c), EffectiveSource(c.source), Items(chunk));
    OverwriteValue(s, rows, rk);
    OverwriteValue(t, rows, rk);
  }

  lemma OwnAt(c: Client, table: Table, rk: RowKey)
    ensures At(Own(c, table), rk) == if Owns(c, rk) then At(table, rk) else None
  {
  }

  // Serving a chunk commutes with looking at the client's own rows.
  lemma ServeOwn(c: Client, table: Table, chunk: seq<Bucket>)
    ensures ServeChunk(c, Own(c, table), chunk) == (ServeChunk(c, table, chunk).0,
        Own(c, ServeChunk(c, table, chunk).1))
  {
    hide ServeChunk, RowKeyOf, Own, Owns;
    AnswerIgnoresTable(c, Own(c, table), table, chunk);
    var alone, shared := ServeChunk(c, Own(c, table), chunk).1, ServeChunk(c, table, chunk).1;
    forall rk ensures At(alone, rk) == At(Own(c, shared), rk) {
      OwnAt(c, table, rk);
      OwnAt(c, shared, rk);
      if Owns(c, rk) {
        EntryIsLocal(c, Own(c, table), table, chunk, rk);
      } else {
        NotOwnedUnchanged(c, Own(c, table), chunk, rk);
      }
    }
    SameTable(alone, Own(c, shared));
  }

  lemma NotOwnedUnchanged(c: Client, table: Table, chunk: seq<Bucket>, rk: RowKey)
    requires !Owns(c, rk)
    ensures At(ServeChunk(c, table, chunk).1, rk) == At(table, rk)
  {
    hide ServeChunk, RowKeyOf, Owns;
    ServedEntries(c, table, chunk, rk);
    if At(ServeChunk(c, table, chunk).1, rk) != At(table, rk) {
      var b :| b in chunk && !Blank(b.id.model) && RowKeyOf(c, b.id) == rk
               && At(ServeChunk(c, table, chunk).1, rk) == Some(Stored(b.usage));
      RowKeyIsOwned(c, b.id);
    }
  }

  // A step looks at and changes the client's own rows only.
  lemma StepIsLocal(c: Client, m: Machine, table: Table, e: Event)
    ensures
      var shared := Next(c, With(m, table), e);
      Next(c, With(m, Own(c, table)), e)
        == if shared.Some? then Some(shared.value.(table := Own(c, shared.value.table))) else None
  {
    hide ServeChunk, Own, StateKey, Buckets, MarkAll, SignatureMap, Pending, FullyAccepted;
    match e
    case Respond(lost) =>
      if m.run.Sending? && m.run.done <= |m.run.pending| {
        ServeOwn(c, table, Chunk(c, m.run.pending, m.run.done));
      }
    case Deliver(i) =>
      if i < |m.strays| {
        ServeOwn(c, table, m.strays[i].chunk);
      }
    case _ =>
  }

  lemma StepLeavesOthers(c: Client, m: Machine, table: Table, e: Event, rk: RowKey)
    requires Next(c, With(m, table), e).Some? && !Owns(c, rk)
    ensures At(Next(c, With(m, table), e).value.table, rk) == At(table, rk)
  {
    hide ServeChunk, StateKey, Buckets, MarkAll, SignatureMap, Pending, Owns, FullyAccepted;
    if e.Respond? {
      NotOwnedUnchanged(c, table, Chunk(c, m.run.pending, m.run.done), rk);
    } else if e.Deliver? {
      NotOwnedUnchanged(c, table, m.strays[e.i].chunk, rk);
    }
  }

  lemma OthersUnchanged(c: Client, o: Client, m: Machine, table: Table, e: Event)
    requires UserOf(c) != UserOf(o) || EffectiveSource(c.source) != EffectiveSource(o.source)
    requires Next(c, With(m, table), e).Some?
    ensures Own(o, Next(c, With(m, table), e).value.table) == Own(o, table)
  {
    hide Next, UserOf, EffectiveSource, Own;
    var after := Next(c, With(m, table), e).value.table;
    forall rk ensures At(Own(o, after), rk) == At(Own(o, table), rk) {
      OwnAt(o, after, rk);
      OwnAt(o, table, rk);
      if Owns(o, rk) {
        StepLeavesOthers(c, m, table, e, rk);
      }
    }
    SameTable(Own(o, after), Own(o, table));
  }

  // Non-interference: however the machines interleave, each one and its rows are as if it
  // had run alone.
  lemma {:induction false} NonInterference(clients: seq<Client>, turns: seq<Turn>, i: nat)
    requires DistinctSources(clients) && i < |clients|
    requires TakeAll(clients, FleetStart(clients), turns).Some?
    ensures
      var f := TakeAll(clients, FleetStart(clients), turns).value;
      && |f.machines| == |clients|
      && Exec(clients[i], START, EventsOf(turns, i)) == Some(With(f.machines[i], Own(clients[i], f.table)))
  {
    hide Next, Own, UserOf, EffectiveSource;
    if turns == [] {
      NothingOwned(clients[i]);
    } else {
      var front, turn := turns[..|turns| - 1], turns[|turns| - 1];
      NonInterference(clients, front, i);
      var f := TakeAll(clients, FleetStart(clients), front).value;
      if turn.i == i {
        StepIsLocal(clients[i], f.machines[i], f.table, turn.e);
        ExecThen(clients[i], START, EventsOf(front, i), With(f.machines[i], Own(clients[i], f.table)), turn.e);
      } else {
        OthersUnchanged(clients[turn.i], clients[i], f.machines[turn.i], f.table, turn.e);
      }
    }
  }

  lemma NothingOwned(c: Client)
    ensures Own(c, map[]) == map[]
  {
  }

  /* ---------- totals over machines ---------- */

  function SumAt(table: Table, rks: seq<RowKey>): Usage
    requires forall rk :: rk in rks ==> rk in table
  {
    if rks == [] then NO_USAGE
    else
      assert rks[|rks| - 1] in rks;
      Plus(SumAt(table, rks[..|rks| - 1]), table[rks[|rks| - 1]])
  }

  lemma {:induction false} SumAtConcat(table: Table, a: seq<RowKey>, b: seq<RowKey>)
    requires forall rk :: rk in a || rk in b ==> rk in table
    ensures SumAt(table, a + b) == Plus(SumAt(table, a), SumAt(table, b))
  {
    if b == [] {
      assert a + b == a;
      PlusNothing(SumAt(table, a));
    } else {
      var front, last := b[..|b| - 1], b[|b| - 1];
      SumAtConcat(table, a, front);
      assert (a + b)[..|a + b| - 1] == a + front;
      PlusAssociative(SumAt(table, a), SumAt(table, front), table[last]);
    }
  }

  lemma {:induction false} SumAtPermuted(table: Table, a: seq<RowKey>, b: seq<RowKey>)
    requires multiset(a) == multiset(b)
    requires forall rk :: rk in a ==> rk in table
    ensures forall rk :: rk in b ==> rk in table
    ensures SumAt(table, a) == SumAt(table, b)
    decreases |a|
  {
    forall rk | rk in b ensures rk in table {
      assert rk in multiset(b);
    }
    if a == [] {
      assert |multiset(b)| == 0;
      assert b == [];
    } else {
      var i := TakeOut(a, b);
      var left, x, right := b[..i], b[i], b[i + 1..];
      assert b == (left + [x]) + right && forall rk :: rk in left || rk in right ==> rk in b;
      SumAtPermuted(table, a[..|a| - 1], left + right);
      SumAtConcat(table, left, right);
      SumAtConcat(table, left + [x], right);
      SumAtConcat(table, left, [x]);
      SumAtOne(table, x);
      PlusSwap(SumAt(table, left), table[x], SumAt(table, right));
    }
  }

  lemma SumAtOne(table: Table, x: RowKey)
    requires x in table
    ensures SumAt(table, [x]) == table[x]
  {
    assert [x][..0] == [];
    assert SumAt(table, [x][..0]) == NO_USAGE;
  }

  // The rows of one client, in the order its log met their keys.
  function RowsOfKeys(c: Client, keys: seq<RawKey>): seq<RowKey> {
    if keys == [] then [] else RowsOfKeys(c, keys[..|keys| - 1]) + [RowOf(c, keys[|keys| - 1])]
  }

  lemma {:induction false} RowsOfKeysContents(c: Client, keys: seq<RawKey>, rk: RowKey)
    ensures rk in RowsOfKeys(c, keys) <==> exists k :: k in keys && RowOf(c, k) == rk
  {
    hide RowOf;
    if keys != [] {
      var front, last := keys[..|keys| - 1], keys[|keys| - 1];
      RowsOfKeysContents(c, front, rk);
      assert keys == front + [last];
    }
  }

  // In sync, the rows of a client add up to the qualifying rows of its log.
  lemma {:induction false} ClientTotal(c: Client, log: seq<LogRow>, table: Table, keys: seq<RawKey>)
    requires InSync(c, log, table)
    requires forall k :: k in keys ==> Live(c, log, k) && Current(c, log, k).cost >= 0
    ensures forall rk :: rk in RowsOfKeys(c, keys) ==> rk in table
    ensures SumAt(table, RowsOfKeys(c, keys)) == KeySum(c.filter, log, keys)
  {
    hide RowOf, RowsOf, Live;
    if keys != [] {
      var front, last := keys[..|keys| - 1], keys[|keys| - 1];
      assert keys == front + [last];
      ClientTotal(c, log, table, front);
      assert At(table, RowOf(c, last)) == Some(Stored(Current(c, log, last)));
      var rks := RowsOfKeys(c, keys);
      assert rks[..|rks| - 1] == RowsOfKeys(c, front);
    }
  }

  lemma {:induction false} SumAtOwn(c: Client, table: Table, rks: seq<RowKey>)
    requires forall rk :: rk in rks ==> rk in Own(c, table)
    ensures forall rk :: rk in rks ==> rk in table && Owns(c, rk)
    ensures SumAt(table, rks) == SumAt(Own(c, table), rks)
  {
    if rks != [] {
      var front := rks[..|rks| - 1];
      assert rks == front + [rks[|rks| - 1]];
      SumAtOwn(c, table, front);
    }
  }

  lemma {:induction false} RowsOfKeysDistinct(c: Client, log: seq<LogRow>, keys: seq<RawKey>)
    requires Separate(c, log) && NoDuplicates(keys)
    requires forall k :: k in keys ==> Live(c, log, k) && !Blank(k.model)
    ensures NoDuplicates(RowsOfKeys(c, keys))
  {
    hide RowOf, SlotOf, Live, Blank;
    if keys != [] {
      var front, last := keys[..|keys| - 1], keys[|keys| - 1];
      assert keys == front + [last];
      RowsOfKeysDistinct(c, log, front);
      RowsOfKeysContents(c, front, RowOf(c, last));
      forall k | k in front ensures RowOf(c, k) != RowOf(c, last) {
        assert k in keys && !Clash(c, k, last);
        assert k != last;
      }
    }
  }

  // A machine whose rows are the aggregate of its log.
  ghost predicate Settled(c: Client, log: seq<LogRow>, table: Table) {
    && Separate(c, log) && InSync(c, log, Own(c, table))
    && forall k :: Live(c, log, k) ==> !Blank(k.model) && Current(c, log, k).cost >= 0
  }

  function RowsOfClient(c: Client, log: seq<LogRow>): seq<RowKey> {
    RowsOfKeys(c, FirstSeen(c.filter, log))
  }

  lemma ClientRows(c: Client, log: seq<LogRow>, table: Table)
    requires Settled(c, log, table)
    ensures NoDuplicates(RowsOfClient(c, log))
    ensures forall rk :: rk in RowsOfClient(c, log) <==> rk in table && Owns(c, rk)
    ensures SumAt(table, RowsOfClient(c, log)) == Total(Qualifying(c.filter, log))
  {
    hide RowOf, SlotOf, Blank, Separate;
    var keys := FirstSeen(c.filter, log);
    FirstSeenKeys(c.filter, log);
    FirstSeenOnce(c.filter, log);
    assert forall k :: k in keys <==> Live(c, log, k);
    RowsOfKeysDistinct(c, log, keys);
    ClientTotal(c, log, Own(c, table), keys);
    KeySumOfAll(c.filter, log);
    SumAtOwn(c, table, RowsOfKeys(c, keys));
    forall rk | rk in table && Owns(c, rk) ensures rk in RowsOfKeys(c, keys) {
      assert rk in Own(c, table);
      assert RowInUse(c, log, rk);
      RowsOfKeysContents(c, keys, rk);
    }
  }

  // The rows a user has, machine by machine, and what the logs of those machines add up to.
  function RowsOfUser(clients: seq<Client>, logs: seq<seq<LogRow>>, user: int): seq<RowKey>
    requires |logs| == |clients|
  {
    if clients == [] then []
    else
      var n := |clients| - 1;
      RowsOfUser(clients[..n], logs[..n], user)
      + if UserOf(clients[n]) == user then RowsOfClient(clients[n], logs[n]) else []
  }

  function UsageOfUser(clients: seq<Client>, logs: seq<seq<LogRow>>, user: int): Usage
    requires |logs| == |clients|
  {
    if clients == [] then NO_USAGE
    else
      var n := |clients| - 1;
      var before := UsageOfUser(clients[..n], logs[..n], user);
      if UserOf(clients[n]) == user then Plus(before, Total(Qualifying(clients[n].filter, logs[n]))) else before
  }

  lemma {:induction false} RowsOfUserTotal(clients: seq<Client>, logs: seq<seq<LogRow>>, user: int, table: Table)
    requires |logs| == |clients| && DistinctSources(clients)
    requires forall i :: 0 <= i < |clients| ==> Settled(clients[i], logs[i], table)
    ensures NoDuplicates(RowsOfUser(clients, logs, user))
    ensures forall rk :: rk in RowsOfUser(clients, logs, user)
              <==> rk in table && rk.user == user && OwnedBySome(clients, rk)
    ensures SumAt(table, RowsOfUser(clients, logs, user)) == UsageOfUser(clients, logs, user)
  {
    hide Settled, UserOf, EffectiveSource, RowsOfClient, Total, Qualifying, Owns, OwnedBySome;
    NobodyOwns();
    if clients != [] {
      var n := |clients| - 1;
      var cs, ls, c := clients[..n], logs[..n], clients[n];
      RowsOfUserTotal(cs, ls, user, table);
      ClientRows(c, logs[n], table);
      var before, mine := RowsOfUser(cs, ls, user), RowsOfClient(c, logs[n]);
      forall rk ensures OwnedBySome(clients, rk) <==> OwnedBySome(cs, rk) || Owns(c, rk) {
        OwnersSplit(clients, rk);
      }
      forall rk | Owns(c, rk) ensures rk.user == UserOf(c) && !OwnedBySome(cs, rk) {
        OneOwner(clients, rk);
      }
      if UserOf(c) == user {
        SumAtConcat(table, before, mine);
        NoDuplicatesConcat(before, mine);
      } else {
        assert before + [] == before;
      }
    }
  }

  ghost predicate OwnedBySome(clients: seq<Client>, rk: RowKey) {
    exists i :: 0 <= i < |clients| && Owns(clients[i], rk)
  }

  lemma NobodyOwns()
    ensures forall rk :: !OwnedBySome([], rk)
  {
  }

  lemma OwnersSplit(clients: seq<Client>, rk: RowKey)
    requires clients != []
    ensures OwnedBySome(clients, rk)
       <==> OwnedBySome(clients[..|clients| - 1], rk) || Owns(clients[|clients| - 1], rk)
  {
    hide Owns;
    var cs := clients[..|clients| - 1];
    assert forall i :: 0 <= i < |cs| ==> cs[i] == clients[i];
    if OwnedBySome(cs, rk) {
      var i :| 0 <= i < |cs| && Owns(cs[i], rk);
      assert Owns(clients[i], rk);
    }
    if OwnedBySome(clients, rk) && !Owns(clients[|clients| - 1], rk) {
      var i :| 0 <= i < |clients| && Owns(clients[i], rk);
      assert Owns(cs[i], rk);
    }
  }

  lemma OneOwner(clients: seq<Client>, rk: RowKey)
    requires DistinctSources(clients) && clients != [] && Owns(clients[|clients| - 1], rk)
    ensures rk.user == UserOf(clients[|clients| - 1]) && !OwnedBySome(clients[..|clients| - 1], rk)
  {
    hide UserOf, EffectiveSource;
    var cs := clients[..|clients| - 1];
    assert forall i :: 0 <= i < |cs| ==> cs[i] == clients[i];
  }

  lemma NoDuplicatesConcat<T>(a: seq<T>, b: seq<T>)
    requires NoDuplicates(a) && NoDuplicates(b) && forall x :: x in a ==> x !in b
    ensures NoDuplicates(a + b)
  {
    forall i, j | 0 <= i < j < |a + b| ensures (a + b)[i] != (a + b)[j] {
      if i < |a| <= j {
        assert a[i] in a && b[j - |a|] in b;
      }
    }
  }

  lemma {:induction false} EveryRowOwned(clients: seq<Client>, turns: seq<Turn>)
    requires TakeAll(clients, FleetStart(clients), turns).Some?
    ensures forall rk :: rk in TakeAll(clients, FleetStart(clients), turns).value.table ==>
              OwnedBySome(clients, rk)
  {
    hide Next, Owns;
    if turns != [] {
      var front, turn := turns[..|turns| - 1], turns[|turns| - 1];
      EveryRowOwned(clients, front);
      var f := TakeAll(clients, FleetStart(clients), front).value;
      var after := TakeAll(clients, FleetStart(clients), turns).value.table;
      forall rk | rk in after ensures OwnedBySome(clients, rk) {
        if !Owns(clients[turn.i], rk) {
          StepLeavesOthers(clients[turn.i], f.machines[turn.i], f.table, turn.e, rk);
        }
      }
    }
  }

  // A machine that has reported: late requests of its own did no harm, no two buckets of its log
  // clash, and nothing is pending against its state file. Costs are not negative, as the sidecar
  // stores no negative cost.
  ghost predicate HasReported(c: Client, events: seq<Event>, m: Machine) {
    && HarmlessHistory(c, events) && Separate(c, m.log)
    && m.disk.Readable? && Pending(c, Buckets(c.filter, m.log), m.disk.marks) == []
    && forall k :: Live(c, m.log, k) ==> Current(c, m.log, k).cost >= 0
  }

  // Such a machine's rows are the aggregate of its log, whatever the others do.
  lemma ReportedIsSettled(clients: seq<Client>, turns: seq<Turn>, i: nat)
    requires DistinctSources(clients) && i < |clients| && TakeAll(clients, FleetStart(clients), turns).Some?
    requires
      var f := TakeAll(clients, FleetStart(clients), turns).value;
      i < |f.machines| && HasReported(clients[i], EventsOf(turns, i), f.machines[i])
    ensures
      var f := TakeAll(clients, FleetStart(clients), turns).value;
      Settled(clients[i], f.machines[i].log, f.table)
  {
    hide Inv, DistinctSources, TakeAll, Exec, HarmlessHistory, Own, Separate, Buckets, Pending, InSync, Live, Blank;
    var f := TakeAll(clients, FleetStart(clients), turns).value;
    var c, m := clients[i], f.machines[i];
    var s := With(m, Own(c, f.table));
    NonInterference(clients, turns, i);
    HarmlessHistoryKeepsInv(c, EventsOf(turns, i));
    DiskIsSaved(c, s);
    NothingPendingMeansInSync(c, s, m.disk.marks);
    forall k | Live(c, m.log, k) ensures !Blank(k.model) {
      StoredIsNamed(c, s, k);
    }
  }

  lemma DiskIsSaved(c: Client, s: Sys)
    requires Inv(c, s)
    ensures s.disk.Readable? ==> s.disk.marks in s.saved
  {
  }

  lemma StoredIsNamed(c: Client, s: Sys, k: RawKey)
    requires Inv(c, s) && InSync(c, s.log, s.table) && Live(c, s.log, k)
    ensures !Blank(k.model)
  {
    hide RowOf, MarksOk, RunOk, StrayOk, NoForeignRows, Blank;
    assert RowOk(c, s.log, s.table, k);
    assert At(s.table, RowOf(c, k)).Some?;
  }

  function LogsOf(f: Fleet): (logs: seq<seq<LogRow>>)
    ensures |logs| == |f.machines| && forall i :: 0 <= i < |logs| ==> logs[i] == f.machines[i].log
  {
    seq(|f.machines|, i requires 0 <= i < |f.machines| => f.machines[i].log)
  }

  // A user's total over all sources is the sum over the machines: once every machine has
  // reported, the rows of a user, listed once each, add up to the qualifying rows of the logs.
  lemma UserTotal(clients: seq<Client>, turns: seq<Turn>, user: int, rows: seq<RowKey>)
    requires DistinctSources(clients) && TakeAll(clients, FleetStart(clients), turns).Some?
    requires
      var f := TakeAll(clients, FleetStart(clients), turns).value;
      && |f.machines| == |clients|
      && (forall i :: 0 <= i < |clients| ==> HasReported(clients[i], EventsOf(turns, i), f.machines[i]))
      && NoDuplicates(rows)
      && (forall rk :: rk in rows <==> rk in f.table && rk.user == user)
    ensures
      var f := TakeAll(clients, FleetStart(clients), turns).value;
      SumAt(f.table, rows) == UsageOfUser(clients, LogsOf(f), user)
  {
    hide Settled, HasReported, DistinctSources, TakeAll, OwnedBySome, RowsOfUser, UsageOfUser, SumAt;
    var f := TakeAll(clients, FleetStart(clients), turns).value;
    forall i | 0 <= i < |clients| ensures Settled(clients[i], LogsOf(f)[i], f.table) {
      ReportedIsSettled(clients, turns, i);
    }
    EveryRowOwned(clients, turns);
    RowsOfUserTotal(clients, LogsOf(f), user, f.table);
    SameElements(rows, RowsOfUser(clients, LogsOf(f), user));
    SumAtPermuted(f.table, rows, RowsOfUser(clients, LogsOf(f), user));
  }

  /* ---------- why the sources must differ ---------- */

  function TurnsOf(i: nat, events: seq<Event>): seq<Turn> {
    if events == [] then [] else TurnsOf(i, events[..|events| - 1]) + [Turn(i, events[|events| - 1])]
  }

  lemma {:induction false} TakeAllConcat(clients: seq<Client>, f: Fleet, a: seq<Turn>, b: seq<Turn>)
    ensures TakeAll(clients, f, a + b)
         == if TakeAll(clients, f, a).Some? then TakeAll(clients, TakeAll(clients, f, a).value, b) else None
  {
    hide Take;
    if b == [] {
      assert a + b == a;
    } else {
      TakeAllConcat(clients, f, a, b[..|b| - 1]);
      assert (a + b)[..|a + b| - 1] == a + b[..|b| - 1];
    }
  }

  // While only machine i moves, the fleet follows its protocol.
  lemma {:induction false} SoloTurns(clients: seq<Client>, f: Fleet, i: nat, events: seq<Event>)
    requires i < |clients| && |f.machines| == |clients|
    requires Exec(clients[i], With(f.machines[i], f.table), events).Some?
    ensures
      var s := Exec(clients[i], With(f.machines[i], f.table), events).value;
      TakeAll(clients, f, TurnsOf(i, events)) == Some(Fleet(f.machines[i := Without(s)], s.table))
  {
    hide Next;
    if events == [] {
      assert f.machines[i := f.machines[i]] == f.machines;
    } else {
      var front, e := events[..|events| - 1], events[|events| - 1];
      SoloTurns(clients, f, i, front);
      var s := Exec(clients[i], With(f.machines[i], f.table), front).value;
      assert TurnsOf(i, events) == TurnsOf(i, front) + [Turn(i, e)];
      assert TurnsOf(i, events)[..|TurnsOf(i, front)|] == TurnsOf(i, front);
      var machines, after := f.machines[i := Without(s)], Without(Next(clients[i], s, e).value);
      assert machines[i := after] == f.machines[i := after];
    }
  }

  // Machine i and its rows are as if it had run alone.
  ghost predicate AsIfAlone(clients: seq<Client>, turns: seq<Turn>, i: nat)
    requires i < |clients|
  {
    var f := TakeAll(clients, FleetStart(clients), turns);
    f.Some? ==>
      && |f.value.machines| == |clients|
      && Exec(clients[i], START, EventsOf(turns, i)) == Some(With(f.value.machines[i], Own(clients[i], f.value.table)))
  }

  // Some row this client may log has a name and is accepted.
  ghost predicate CanReport(c: Client) {
    Serves(c) && exists k :: Producible(c, k) && !Blank(k.model)
  }

  // Machines that can report at all leave each other alone, however they interleave, if and
  // only if no two of them share a user and a source.
  lemma SourcesExactly(clients: seq<Client>)
    requires forall i :: 0 <= i < |clients| ==> CanReport(clients[i])
    ensures (forall turns, i :: 0 <= i < |clients| ==> AsIfAlone(clients, turns, i)) <==> DistinctSources(clients)
  {
    hide CanReport, AsIfAlone, UserOf, EffectiveSource;
    if DistinctSources(clients) {
      forall turns, i | 0 <= i < |clients| ensures AsIfAlone(clients, turns, i) {
        DistinctMeansAlone(clients, turns, i);
      }
    } else {
      var i, j :| 0 <= i < j < |clients|
        && UserOf(clients[i]) == UserOf(clients[j])
            && EffectiveSource(clients[i].source) == EffectiveSource(clients[j].source);
      var turns := SharedMeansSeen(clients, i, j);
    }
  }

  lemma DistinctMeansAlone(clients: seq<Client>, turns: seq<Turn>, i: nat)
    requires DistinctSources(clients) && i < |clients|
    ensures AsIfAlone(clients, turns, i)
  {
    hide DistinctSources, TakeAll, Exec, Own;
    if TakeAll(clients, FleetStart(clients), turns).Some? {
      NonInterference(clients, turns, i);
    }
  }

  // What machine j reports appears among the rows of machine i, which has not moved.
  lemma SharedMeansSeen(clients: seq<Client>, i: nat, j: nat) returns (turns: seq<Turn>)
    requires i < j < |clients| && CanReport(clients[j])
    requires UserOf(clients[i]) == UserOf(clients[j])
        && EffectiveSource(clients[i].source) == EffectiveSource(clients[j].source)
    ensures !AsIfAlone(clients, turns, i)
  {
    hide UserOf, EffectiveSource, Exec, TakeAll, EventsOf, RowOf, Serves, HasKey, Own, Blank;
    var c := clients[j];
    var k :| Producible(c, k) && !Blank(k.model);
    var events, s := FirstReportOf(c, k);
    var start := FleetStart(clients);
    SoloTurns(clients, start, j, events);
    turns := TurnsOf(j, events);
    NoEventsOf(i, j, events);
    ExecNothing(clients[i], START);
    RowOfIsOwned(c, k);
    OwnAt(clients[i], s.table, RowOf(c, k));
    assert Own(clients[i], s.table) != map[];
  }

  lemma RowOfIsOwned(c: Client, k: RawKey)
    ensures Owns(c, RowOf(c, k))
  {
    hide RowKeyOf;
    RowKeyIsOwned(c, IdOf(k));
  }

  lemma FirstReportOf(c: Client, k: RawKey) returns (events: seq<Event>, s: Sys)
    requires Serves(c) && Producible(c, k) && !Blank(k.model)
    ensures Exec(c, START, events) == Some(s) && RowOf(c, k) in s.table
  {
    hide Exec, RowOf, Serves, HasKey, Blank, SlotOf, Signature, RowUsage;
    var r :| HasKey(c.filter, r, k);
    PlainKeepsKey(c.filter, r, k);
    events, s := FirstReport(c, Plain(r), k);
  }

  lemma {:induction false} NoEventsOf(i: nat, j: nat, events: seq<Event>)
    requires i != j
    ensures EventsOf(TurnsOf(j, events), i) == []
  {
    if events != [] {
      var front := events[..|events| - 1];
      NoEventsOf(i, j, front);
      assert TurnsOf(j, events)[..|TurnsOf(j, front)|] == TurnsOf(j, front);
    }
  }

  // Two machines with the same user and source: the second overwrites what the first
  // reported, and the first takes it for reported.
  lemma SharedSourceOverwrites(c: Client, r: LogRow, k: RawKey) returns (turns: seq<Turn>, f: Fleet)
    requires Serves(c) && HasKey(c.filter, r, k) && RowUsage(r) == PlainUsage(1) && !Blank(k.model)
    ensures TakeAll([c, c], FleetStart([c, c]), turns) == Some(f)
    ensures |f.machines| == 2 && f.machines[0].log == [r, r] && f.machines[1].log == [r]
    ensures At(f.table, RowOf(c, k)) == Some(PlainUsage(1))
    ensures !SkipSafe(c, With(f.machines[0], f.table))
  {
    hide *;
    var a, b, s, t := OneAfterTheOther(c, r, k);
    var start := FleetStart([c, c]);
    MachinesAtStart(c);
    SoloTurns([c, c], start, 0, a);
    var f1 := Fleet(start.machines[0 := Without(s)], s.table);
    AsMachine(s, start, f1);
    SoloTurns([c, c], f1, 1, b);
    TakeAllConcat([c, c], start, TurnsOf(0, a), TurnsOf(1, b));
    turns := TurnsOf(0, a) + TurnsOf(1, b);
    f := Fleet(f1.machines[1 := Without(t)], t.table);
    AsMachine2(c, s, t, f, k);
    OneKeySeparate(c, r, k);
    StaleUnsafe(c, s, k, s.disk.marks);
  }

  lemma MachinesAtStart(c: Client)
    ensures |FleetStart([c, c]).machines| == 2
    ensures forall i :: 0 <= i < 2 ==> With(FleetStart([c, c]).machines[i], FleetStart([c, c]).table) == START
  {
  }

  lemma AsMachine(s: Sys, start: Fleet, f: Fleet)
    requires |start.machines| == 2 && With(start.machines[1], start.table) == START
    requires f == Fleet(start.machines[0 := Without(s)], s.table)
    ensures |f.machines| == 2 && With(f.machines[1], f.table) == START.(table := s.table)
  {
  }

  lemma AsMachine2(c: Client, s: Sys, t: Sys, f: Fleet, k: RawKey)
    requires |f.machines| == 2 && f.machines[0] == Without(s) && f.machines[1] == Without(t) && f.table == t.table
    requires t.table == s.table[RowOf(c, k) := PlainUsage(1)]
    ensures With(f.machines[0], f.table) == s.(table := s.table[RowOf(c, k) := PlainUsage(1)])
    ensures f.machines[0].log == s.log && f.machines[1].log == t.log
    ensures At(f.table, RowOf(c, k)) == Some(PlainUsage(1))
  {
  }

  // The first machine reports two requests, the second one.
  lemma OneAfterTheOther(c: Client, r: LogRow, k: RawKey) returns (a: seq<Event>, b: seq<Event>, s: Sys, t: Sys)
    requires Serves(c) && HasKey(c.filter, r, k) && RowUsage(r) == PlainUsage(1) && !Blank(k.model)
    ensures Exec(c, START, a) == Some(s) && s.log == [r, r] && s.disk.Readable? && s.disk.marks in s.saved
    ensures SlotOf(c, k) in s.disk.marks && s.disk.marks[SlotOf(c, k)] == Signature(PlainUsage(2))
    ensures Exec(c, START.(table := s.table), b) == Some(t) && t.log == [r]
    ensures t.table == s.table[RowOf(c, k) := PlainUsage(1)]
  {
    hide *;
    a, s := ReportTwo(c, r, k);
    b, t := ReportOne(c, r, k, s.table);
  }

  lemma ReportTwo(c: Client, r: LogRow, k: RawKey) returns (events: seq<Event>, s: Sys)
    requires Serves(c) && HasKey(c.filter, r, k) && RowUsage(r) == PlainUsage(1) && !Blank(k.model)
    ensures Exec(c, START, events) == Some(s) && s.log == [r, r] && s.disk.Readable? && s.disk.marks in s.saved
    ensures SlotOf(c, k) in s.disk.marks && s.disk.marks[SlotOf(c, k)] == Signature(PlainUsage(2))
  {
    hide SlotOf, RowOf, Signature, Serves, HasKey, Exec, WholeRun, Buckets;
    var s0 := START.(log := [r, r]);
    assert START.log + [r] == [r] && [r] + [r] == [r, r];
    ExecOne(c, START, Append(r));
    ExecThen(c, START, [Append(r)], START.(log := [r]), Append(r));
    TwoRowBuckets(c.filter, r, k);
    s := UnmarkedRun(c, s0, k, 2);
    ExecConcat(c, START, [Append(r)] + [Append(r)], WholeRun(map[]));
    events := [Append(r)] + [Append(r)] + WholeRun(map[]);
  }

  lemma ReportOne(c: Client, r: LogRow, k: RawKey, table: Table) returns (events: seq<Event>, t: Sys)
    requires Serves(c) && HasKey(c.filter, r, k) && RowUsage(r) == PlainUsage(1) && !Blank(k.model)
    ensures Exec(c, START.(table := table), events) == Some(t) && t.log == [r]
    ensures t.table == table[RowOf(c, k) := PlainUsage(1)]
  {
    hide SlotOf, RowOf, Signature, Serves, HasKey, Exec, WholeRun, Buckets;
    var t0 := START.(table := table);
    assert t0.log + [r] == [r];
    ExecOne(c, t0, Append(r));
    OneRowBuckets(c.filter, r, k);
    t := UnmarkedRun(c, t0.(log := [r]), k, 1);
    ExecConcat(c, t0, [Append(r)], WholeRun(map[]));
    events := [Append(r)] + WholeRun(map[]);
  }
}
