// Several reporter processes (scheduled, manual, from different programs) sharing one state
// file: each reads the file when it starts, waits for the lock, reads the file again and
// runs (cc_usage_reporter/cc_usage_reporter/reporter.py:50-53 and state.py:58-89).
module LockedProcesses {
  import opened Options
  import opened UsageLog
  import opened Sidecar
  import opened Client
  import opened Protocol
  import opened LateDelivery
  import opened Exactness

  datatype Proc = Waiting(early: Marks) | Inside(run: Run)

  // `lock` is the owner of the lock file; `touched` notes that the state file was lost or
  // replaced from outside while a run was under way.
  datatype World = World(log: seq<LogRow>, disk: Disk, saved: set<Marks>, table: Table, strays: seq<Stray>,
                         procs: map<nat, Proc>, lock: Option<nat>, touched: bool)

  const NOBODY: World := World([], Unreadable, {map[]}, map[], [], map[], None, false)

  datatype Step =
    | Open(p: nat)                 // State(...) is constructed: first read of the file, no lock yet
    | Abort(p: nat)                // the process ends while waiting
    | Enter(p: nat)                // the lock is granted and the file read again
    | Act(p: nat, e: Event)        // a step of the run of p
    | Env(e: Event)                // the log grows, the file is lost, a late request arrives

  function View(w: World, run: Run): Sys {
    Sys(w.log, w.disk, w.saved, w.table, run, w.strays)
  }

  function Put(w: World, s: Sys): World {
    w.(log := s.log, disk := s.disk, saved := s.saved, table := s.table, strays := s.strays)
  }

  predicate IsEnvironment(e: Event) {
    e.Append? || e.Lose? || e.Deliver?
  }

  function Move(c: Client, w: World, step: Step): Option<World> {
    match step
    case Open(p) =>
      if p in w.procs then None else Some(w.(procs := w.procs[p := Waiting(LoadMarks(w.disk, map[]))]))
    case Abort(p) =>
      if p in w.procs && w.procs[p].Waiting? then Some(w.(procs := w.procs - {p})) else None
    case Enter(p) =>
      if p in w.procs && w.procs[p].Waiting? && w.lock.None? then
        Some(w.(procs := w.procs[p := Inside(Loaded(LoadMarks(w.disk, w.procs[p].early)))],
                lock := Some(p), touched := false))
      else None
    case Act(p, e) =>
      if p in w.procs && w.procs[p].Inside? && !IsEnvironment(e) && !e.Begin? then
        var next := Next(c, View(w, w.procs[p].run), e);
        if next.None? then None
        else if next.value.run.NoRun? then Some(Put(w, next.value).(procs := w.procs - {p}, lock := None))
        else Some(Put(w, next.value).(procs := w.procs[p := Inside(next.value.run)]))
      else None
    case Env(e) =>
      if IsEnvironment(e) then
        var next := Next(c, View(w, NoRun), e);
        if next.None? then None
        else Some(Put(w, next.value).(touched := w.touched || e.Lose?))
      else None
  }

  function MoveAll(c: Client, w: World, steps: seq<Step>): Option<World> {
    if steps == [] then Some(w)
    else
      var before := MoveAll(c, w, steps[..|steps| - 1]);
      if before.Some? then Move(c, before.value, steps[|steps| - 1]) else None
  }

  /* ---------- mutual exclusion ---------- */

  ghost predicate ProcOk(w: World, p: nat) {
    p in w.procs ==>
      match w.procs[p]
      case Waiting(early) => early in w.saved
      case Inside(run) => w.lock == Some(p) && run != NoRun
  }

  ghost predicate Exclusive(w: World) {
    && (forall p :: ProcOk(w, p))
    && (w.lock.Some? ==> w.lock.value in w.procs && w.procs[w.lock.value].Inside?)
    && map[] in w.saved
    && (w.disk.Readable? ==> w.disk.marks in w.saved)
  }

  // The one run there is.
  function TheRun(w: World): Run {
    if w.lock.Some? && w.lock.value in w.procs && w.procs[w.lock.value].Inside?
    then w.procs[w.lock.value].run
    else NoRun
  }

  // The processes seen as a single installation.
  function Together(w: World): Sys {
    View(w, TheRun(w))
  }

  // The protocol event a step amounts to, if any.
  function EventOf(w: World, step: Step): Option<Event> {
    match step
    case Open(_) => None
    case Abort(_) => None
    case Enter(p) => if p in w.procs && w.procs[p].Waiting? then Some(Begin(w.procs[p].early)) else None
    case Act(_, e) => Some(e)
    case Env(e) => Some(e)
  }

  lemma SavedOnlyGrows(c: Client, s: Sys, e: Event)
    requires Next(c, s, e).Some?
    requires s.disk.Readable? ==> s.disk.marks in s.saved
    ensures s.saved <= Next(c, s, e).value.saved
    ensures Next(c, s, e).value.disk.Readable? ==> Next(c, s, e).value.disk.marks in Next(c, s, e).value.saved
  {
    hide ServeChunk, MarkAll, SignatureMap, Buckets, Pending, StateKey;
  }

  // Environment events neither read nor change the run.
  lemma EnvironmentIgnoresRun(c: Client, s: Sys, e: Event, run: Run)
    requires IsEnvironment(e)
    ensures Next(c, s.(run := run), e)
         == if Next(c, s, e).Some? then Some(Next(c, s, e).value.(run := run)) else None
    ensures Next(c, s, e).Some? ==> Next(c, s, e).value.run == s.run
  {
    hide ServeChunk;
  }

  // One step of the processes is one step of the single installation, or none.
  lemma StepSerialises(c: Client, w: World, step: Step)
    requires Exclusive(w) && Move(c, w, step).Some?
    ensures
      var after := Move(c, w, step).value;
      && Exclusive(after)
      && (match EventOf(w, step)
          case None => Together(after) == Together(w)
          case Some(e) => Next(c, Together(w), e) == Some(Together(after)))
  {
    hide Next;
    var after := Move(c, w, step).value;
    match step
    case Open(p) =>
      assert forall q :: ProcOk(w, q);
      forall q ensures ProcOk(after, q) { assert ProcOk(w, q); }
      assert ProcOk(w, p);
    case Abort(p) =>
      forall q ensures ProcOk(after, q) { assert ProcOk(w, q); }
    case Enter(p) =>
      forall q ensures ProcOk(after, q) { assert ProcOk(w, q); }
      EnterIsBegin(c, w, p);
    case Act(p, e) => ActSerialises(c, w, p, e);
    case Env(e) =>
      EnvironmentIgnoresRun(c, View(w, NoRun), e, TheRun(w));
      SavedOnlyGrows(c, View(w, NoRun), e);
      forall q ensures ProcOk(after, q) { assert ProcOk(w, q); }
  }

  lemma EnterIsBegin(c: Client, w: World, p: nat)
    requires Exclusive(w) && Move(c, w, Enter(p)).Some?
    ensures Next(c, Together(w), Begin(w.procs[p].early)) == Some(Together(Move(c, w, Enter(p)).value))
  {
    assert ProcOk(w, p);
  }

  lemma ActSerialises(c: Client, w: World, p: nat, e: Event)
    requires Exclusive(w) && Move(c, w, Act(p, e)).Some?
    ensures Exclusive(Move(c, w, Act(p, e)).value)
    ensures Next(c, Together(w), e) == Some(Together(Move(c, w, Act(p, e)).value))
  {
    hide Next;
    var after := Move(c, w, Act(p, e)).value;
    assert ProcOk(w, p);
    SavedOnlyGrows(c, Together(w), e);
    forall q ensures ProcOk(after, q) {
      assert ProcOk(w, q);
    }
  }

  // Every late delivery is harmless when it happens.
  ghost predicate HarmlessMoves(c: Client, steps: seq<Step>) {
    steps != [] ==>
      var front, last := steps[..|steps| - 1], steps[|steps| - 1];
      && HarmlessMoves(c, front)
      && (MoveAll(c, NOBODY, front).Some? && last.Env? ==>
            HarmlessStep(c, Together(MoveAll(c, NOBODY, front).value), last.e))
  }

  // However the processes interleave, the outcome is that of their runs one after the other:
  // a path of the protocol with a single installation.
  lemma {:induction false} LockSerialises(c: Client, steps: seq<Step>) returns (events: seq<Event>)
    requires MoveAll(c, NOBODY, steps).Some?
    ensures Exclusive(MoveAll(c, NOBODY, steps).value)
    ensures Exec(c, START, events) == Some(Together(MoveAll(c, NOBODY, steps).value))
    ensures HarmlessMoves(c, steps) ==> HarmlessHistory(c, events)
  {
    hide Next, Move, Harmless;
    if steps == [] {
      events := [];
    } else {
      hide HarmlessHistory, HarmlessStep;
      var front, last := steps[..|steps| - 1], steps[|steps| - 1];
      var w := MoveAll(c, NOBODY, front).value;
      events := LockSerialises(c, front);
      StepSerialises(c, w, last);
      if EventOf(w, last).Some? {
        var e := EventOf(w, last).value;
        ExecThen(c, START, events, Together(w), e);
        if HarmlessMoves(c, steps) {
          OwnEventsAreHarmless(c, w, last);
          HarmlessThen(c, events, Together(w), e);
        }
        events := events + [e];
      }
    }
  }

  lemma OwnEventsAreHarmless(c: Client, w: World, step: Step)
    requires Move(c, w, step).Some? && EventOf(w, step).Some?
    requires step.Env? ==> HarmlessStep(c, Together(w), step.e)
    ensures HarmlessStep(c, Together(w), EventOf(w, step).value)
  {
    hide Next, Harmless, Together;
  }

  // Skip safety with any number of processes: for the file on disk, every earlier version of
  // it, and what the running and the waiting processes have in memory.
  lemma SharedSkipSafety(c: Client, steps: seq<Step>, marks: Marks, k: RawKey)
    requires MoveAll(c, NOBODY, steps).Some? && HarmlessMoves(c, steps)
    requires
      var w := MoveAll(c, NOBODY, steps).value;
      Separate(c, w.log)
      && (marks in w.saved || (w.disk.Readable? && marks == w.disk.marks)
          || exists p :: p in w.procs && match w.procs[p]
             case Waiting(early) => marks == early
             case Inside(run) => run != NoRun && marks == run.mem)
    ensures SkipSafeFor(c, Together(MoveAll(c, NOBODY, steps).value), marks, k)
  {
    hide Separate, SkipSafeFor, Move, Next;
    var w := MoveAll(c, NOBODY, steps).value;
    var events := LockSerialises(c, steps);
    SkipSafety(c, events);
    if exists p :: p in w.procs && match w.procs[p]
       case Waiting(early) => marks == early
       case Inside(run) => run != NoRun && marks == run.mem {
      var p :| p in w.procs && match w.procs[p]
        case Waiting(early) => marks == early
        case Inside(run) => run != NoRun && marks == run.mem;
      assert ProcOk(w, p);
    }
    assert Consulted(Together(w), marks);
  }

  /* ---------- no mark is lost ---------- */

  // While a run is under way and nobody else touches the file, memory and file agree, but
  // for the marks of the chunk that is about to be saved.
  ghost predicate MemoryTracksDisk(c: Client, s: Sys) {
    match s.run
    case NoRun => true
    case Loaded(mem) => s.disk.Readable? ==> mem == s.disk.marks
    case Sending(mem, snap, pending, done, stage) =>
      && done <= |pending|
      && FromSnapshot(c, snap, pending)
      && (s.disk.Readable? ==>
            if stage == Marked then
              mem == MarkAll(c, s.disk.marks, Chunk(c, pending, done), SignatureMap(c, Buckets(c.filter, snap)))
            else mem == s.disk.marks)
  }

  lemma TrackingStep(c: Client, s: Sys, e: Event)
    requires MemoryTracksDisk(c, s) && Next(c, s, e).Some? && !e.Lose?
    ensures MemoryTracksDisk(c, Next(c, s, e).value)
  {
    hide StateKey, Buckets, ServeChunk, MarkAll, SignatureMap;
  }

  lemma {:induction false} TrackingHolds(c: Client, steps: seq<Step>)
    requires MoveAll(c, NOBODY, steps).Some?
    ensures
      var w := MoveAll(c, NOBODY, steps).value;
      Exclusive(w) && (w.lock.Some? && !w.touched ==> MemoryTracksDisk(c, Together(w)))
  {
    hide Next, MemoryTracksDisk;
    if steps != [] {
      var front, last := steps[..|steps| - 1], steps[|steps| - 1];
      var w := MoveAll(c, NOBODY, front).value;
      TrackingHolds(c, front);
      TrackingMove(c, w, last);
    }
  }

  lemma TrackingMove(c: Client, w: World, step: Step)
    requires Exclusive(w) && (w.lock.Some? && !w.touched ==> MemoryTracksDisk(c, Together(w)))
    requires Move(c, w, step).Some?
    ensures
      var after := Move(c, w, step).value;
      Exclusive(after) && (after.lock.Some? && !after.touched ==> MemoryTracksDisk(c, Together(after)))
  {
    hide Next, MemoryTracksDisk;
    StepSerialises(c, w, step);
    var after := Move(c, w, step).value;
    if step.Enter? {
      EnterTracks(c, w, step.p);
    } else if after.lock.Some? && !after.touched && EventOf(w, step).Some? && w.lock.Some? {
      TrackingStep(c, Together(w), EventOf(w, step).value);
    } else if step.Act? {
      assert ProcOk(w, step.p);
    }
  }

  lemma EnterTracks(c: Client, w: World, p: nat)
    requires Exclusive(w) && Move(c, w, Enter(p)).Some?
    ensures MemoryTracksDisk(c, Together(Move(c, w, Enter(p)).value))
  {
    hide Next;
  }

  // No process erases what another one saved: a save adds the marks of its chunk to the file
  // as it is now, and the save that ends a run changes nothing.
  lemma SaveOnlyAdds(c: Client, steps: seq<Step>, p: nat, e: Event)
    requires MoveAll(c, NOBODY, steps + [Act(p, e)]).Some? && (e == Save || e == Finish)
    requires
      var w := MoveAll(c, NOBODY, steps);
      w.Some? && w.value.disk.Readable? && !w.value.touched
    ensures
      var w := MoveAll(c, NOBODY, steps).value;
      var after := MoveAll(c, NOBODY, steps + [Act(p, e)]).value;
      && after.disk.Readable?
      && (e == Finish ==> after.disk == w.disk)
      && forall slot :: slot in w.disk.marks ==>
           && slot in after.disk.marks
           && (after.disk.marks[slot] != w.disk.marks[slot] ==> SlotOfChunk(c, w.procs[p].run, slot))
  {
    hide StateKey, Buckets, ServeChunk, MarkAll, SignatureMap;
    var w := MoveAll(c, NOBODY, steps).value;
    assert (steps + [Act(p, e)])[..|steps|] == steps;
    TrackingHolds(c, steps);
    assert ProcOk(w, p);
    var after := MoveAll(c, NOBODY, steps + [Act(p, e)]).value;
    forall slot | slot in w.disk.marks
      ensures slot in after.disk.marks
      ensures after.disk.marks[slot] != w.disk.marks[slot] ==> SlotOfChunk(c, w.procs[p].run, slot)
    {
      if e == Save {
        var run := w.procs[p].run;
        MarkAllAt(c, w.disk.marks, Chunk(c, run.pending, run.done), SignatureMap(c, Buckets(c.filter, run.snap)), slot);
      }
    }
  }

  // A bucket of the chunk being saved uses the slot.
  ghost predicate SlotOfChunk(c: Client, run: Run, slot: string) {
    run.Sending? && run.done <= |run.pending|
    && exists b :: b in Chunk(c, run.pending, run.done) && StateKey(c.source, b.id) == slot
  }
}
