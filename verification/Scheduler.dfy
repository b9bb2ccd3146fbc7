// The upload scheduler's thread and the thread that controls it, step by step
// (cc_usage_reporter/cc_usage_reporter/scheduler.py). Every read or write of the stop flag, the
// wake flag and the clock is a step of its own, so stop() and wake() may come between any two.
module Scheduler {
  import opened Options
  import opened Schedule

  /* ---------- the machine ---------- */

  datatype Config = Unreadable | Off | On(setting: Setting)

  // woken: the wait for the slot was ended by the wake flag.
  datatype Fate = Open | Fired(at: int, woken: bool) | Passed

  // One call of compute_next_run: the thread that made it, the schedule, the instant it read,
  // the slot it chose, and what became of that slot.
  datatype Plan = Plan(life: nat, times: seq<string>, base: int, slot: int, fate: Fate)

  // Where the loop stands, named after what it does next.
  datatype Place =
    | Idle                                // no thread
    | Head                                // test stop, outer loop
    | Loading                             // load the configuration
    | Pause(until: int, polls: bool)      // wait out a configuration that cannot be used
    | PausePoll                           // test wake after that wait
    | PauseDrop                           // clear wake after that wait
    | Planning(setting: Setting)          // parse and compute the next run
    | Inner                               // test stop, inner loop
    | Clock                               // compare the clock with the slot
    | Asleep(until: int)                  // wait for the slot, at most 30 s at a time
    | Poll                                // test wake after the wait
    | Drop                                // clear wake after the wait
    | Leave(woken: bool)                  // test stop after the inner loop
    | Check(woken: bool)                  // test wake after the inner loop
    | Clearing                            // clear that wake
    | Running                             // inside run_once

  datatype Sched = Sched(now: int, stop: bool, wake: bool, halfStopped: bool, life: nat, place: Place, plans: seq<Plan>)

  // stop() sets two flags one after the other. Go is the thread's next step; a wait ends with Go
  // when the stop flag is set and with TimeOut when its time is over.
  datatype Event =
    | Tick(to: int)
    | StopBegins
    | StopEnds
    | Wake
    | Start
    | Go
    | TimeOut
    | Load(config: Config)

  function Fresh(now: int): Sched {
    Sched(now, false, false, false, 0, Idle, [])
  }

  function Settle(s: Sched, fate: Fate): seq<Plan>
    requires s.plans != []
  {
    s.plans[|s.plans| - 1 := s.plans[|s.plans| - 1].(fate := fate)]
  }

  function Slot(s: Sched): int
    requires s.plans != []
  {
    s.plans[|s.plans| - 1].slot
  }

  ghost function Planned(s: Sched, setting: Setting): Sched {
    match Parse(setting)
    case Times(times) =>
      ParsedTimesAreReadable(setting);
      s.(place := Inner, plans := s.plans + [Plan(s.life, times, s.now, NextRun(times, s.now), Open)])
    case _ =>
      s.(place := Pause(s.now + 30_000_000, true))
  }

  ghost function Thread(s: Sched): Option<Sched> {
    match s.place
    case Idle => None
    case Head => Some(s.(place := if s.stop then Idle else Loading))
    case Loading => None
    case Pause(_, polls) => if s.stop then Some(s.(place := if polls then Head else Idle)) else None
    case PausePoll => Some(s.(place := if s.wake then PauseDrop else Head))
    case PauseDrop => Some(s.(place := Head, wake := false))
    case Planning(setting) => Some(Planned(s, setting))
    case Inner => Some(s.(place := if s.stop then Leave(false) else Clock))
    case Clock =>
      if s.plans == [] then None
      else if Slot(s) <= s.now then Some(s.(place := Leave(false)))
      else Some(s.(place := Asleep(if Slot(s) < s.now + 30_000_000 then Slot(s) else s.now + 30_000_000)))
    case Asleep(_) => if s.stop then Some(s.(place := Leave(false))) else None
    case Poll => Some(s.(place := if s.wake then Drop else Inner))
    case Drop => Some(s.(place := Leave(true), wake := false))
    case Leave(woken) => Some(s.(place := if s.stop then Idle else Check(woken)))
    case Check(woken) =>
      if s.plans == [] then None
      else if s.wake then Some(s.(place := Clearing, plans := Settle(s, Passed)))
      else Some(s.(place := Running, plans := Settle(s, Fired(s.now, woken))))
    case Clearing => Some(s.(place := Head, wake := false))
    case Running => Some(s.(place := Head))
  }

  function Expire(s: Sched): Option<Sched> {
    match s.place
    case Pause(until, polls) =>
      if until <= s.now then Some(s.(place := if polls then PausePoll else Head)) else None
    case Asleep(until) => if until <= s.now then Some(s.(place := Poll)) else None
    case _ => None
  }

  function Configure(s: Sched, config: Config): Sched {
    match config
    case Unreadable => s.(place := Pause(s.now + 30_000_000, false))
    case Off => s.(place := Pause(s.now + 10_000_000, true))
    case On(setting) => s.(place := Planning(setting))
  }

  ghost function Next(s: Sched, e: Event): Option<Sched> {
    match e
    case Tick(to) => if s.now <= to then Some(s.(now := to)) else None
    case StopBegins => if s.halfStopped then None else Some(s.(stop := true, halfStopped := true))
    case StopEnds => if s.halfStopped then Some(s.(wake := true, halfStopped := false)) else None
    case Wake => if s.halfStopped then None else Some(s.(wake := true))
    case Start =>
      if s.halfStopped then None
      else if s.place != Idle then Some(s)
      else Some(s.(stop := false, wake := false, life := s.life + 1, place := Head))
    case Go => Thread(s)
    case TimeOut => Expire(s)
    case Load(config) => if s.place == Loading then Some(Configure(s, config)) else None
  }

  ghost function Exec(s: Sched, events: seq<Event>): Option<Sched>
    decreases |events|
  {
    if events == [] then Some(s)
    else
      match Next(s, events[0])
      case None => None
      case Some(t) => Exec(t, events[1..])
  }

  /* ---------- every history ---------- */

  function WithPlan(s: Sched, times: seq<string>, slot: int): Sched {
    s.(place := Inner, plans := s.plans + [Plan(s.life, times, s.now, slot, Open)])
  }

  lemma PlannedIs(s: Sched, setting: Setting)
    requires Parse(setting).Times? && Readable(Parse(setting).times)
    ensures Planned(s, setting) == WithPlan(s, Parse(setting).times, NextRun(Parse(setting).times, s.now))
  {
    hide IsNext, Parse, Readable;
  }

  ghost predicate PlanOk(s: Sched, p: Plan) {
    && p.life <= s.life
    && p.base <= s.now
    && IsNext(p.times, p.base, p.slot)
    && (p.fate.Fired? ==> p.base <= p.fate.at <= s.now && (p.fate.woken || p.slot <= p.fate.at))
  }

  // p was made before q. Only an unsettled plan is given up by its thread's end.
  ghost predicate Before(p: Plan, q: Plan) {
    && p.life <= q.life
    && p.base <= q.base
    && (p.fate.Fired? ==> p.fate.at <= q.base)
    && (p.fate.Open? ==> p.life < q.life)
  }

  predicate HasPlan(place: Place) {
    place.Inner? || place.Clock? || place.Asleep? || place.Poll? || place.Drop? || place.Leave? || place.Check?
  }

  ghost predicate PlaceOk(s: Sched) {
    && (HasPlan(s.place) ==> s.plans != [] && Last(s).life == s.life && Last(s).fate == Open)
    && (!HasPlan(s.place) && s.place != Idle ==> s.plans != [] ==> Last(s).life < s.life || Last(s).fate != Open)
    && (s.place.Asleep? ==> s.place.until <= Slot(s))
    && (s.place.Leave? ==> s.place.woken || s.stop || Slot(s) <= s.now)
    && (s.place.Check? ==> s.place.woken || Slot(s) <= s.now)
  }

  function Last(s: Sched): Plan
    requires s.plans != []
  {
    s.plans[|s.plans| - 1]
  }

  ghost predicate Inv(s: Sched) {
    && (forall i :: 0 <= i < |s.plans| ==> PlanOk(s, s.plans[i]))
    && (forall i, j :: 0 <= i < j < |s.plans| ==> Before(s.plans[i], s.plans[j]))
    && PlaceOk(s)
  }

  lemma PlannedKeepsInv(s: Sched, setting: Setting)
    requires Inv(s) && s.place == Planning(setting)
    ensures Inv(Planned(s, setting))
  {
    hide IsNext, Parse;
    var t := Planned(s, setting);
    forall i, j | 0 <= i < j < |t.plans| ensures Before(t.plans[i], t.plans[j]) {
      if j == |s.plans| {
        assert PlanOk(s, s.plans[i]);
        assert i < |s.plans| - 1 ==> Before(s.plans[i], Last(s));
      }
    }
  }

  lemma SettleKeepsInv(s: Sched, fate: Fate, place: Place)
    requires Inv(s) && s.place.Check? && fate != Open
    requires fate.Fired? ==> fate.at == s.now && (fate.woken || Slot(s) <= s.now)
    requires place == Clearing || place == Running
    ensures Inv(s.(place := place, plans := Settle(s, fate)))
  {
    hide IsNext;
    var t := s.(place := place, plans := Settle(s, fate));
    assert PlanOk(s, Last(s));
    forall i | 0 <= i < |t.plans| ensures PlanOk(t, t.plans[i]) {
      assert PlanOk(s, s.plans[i]);
    }
    forall i, j | 0 <= i < j < |t.plans| ensures Before(t.plans[i], t.plans[j]) {
      assert Before(s.plans[i], s.plans[j]);
    }
  }

  // A step that leaves the plans alone and does not turn back the clock.
  lemma PlansStayOk(s: Sched, t: Sched)
    requires Inv(s) && t.plans == s.plans && s.now <= t.now && s.life <= t.life && PlaceOk(t)
    ensures Inv(t)
  {
    hide IsNext;
    forall i | 0 <= i < |t.plans| ensures PlanOk(t, t.plans[i]) {
      assert PlanOk(s, s.plans[i]);
    }
  }

  lemma PlaceStaysOk(s: Sched, e: Event, t: Sched)
    requires Inv(s) && Next(s, e) == Some(t) && !(e.Go? && (s.place.Planning? || s.place.Check?))
    ensures PlaceOk(t) && t.plans == s.plans && s.now <= t.now && s.life <= t.life
  {
    hide Inv, Thread;
    InvAtPlace(s);
    if e.Go? {
      ThreadPlaceOk(s, t);
    }
  }

  lemma ThreadPlaceOk(s: Sched, t: Sched)
    requires PlaceOk(s) && Thread(s) == Some(t) && !s.place.Planning? && !s.place.Check?
    ensures PlaceOk(t) && t.plans == s.plans && s.now <= t.now && s.life <= t.life
  {
    hide Planned, Settle;
  }

  lemma NextKeepsInv(s: Sched, e: Event, t: Sched)
    requires Inv(s) && Next(s, e) == Some(t)
    ensures Inv(t)
  {
    hide Inv, Planned, Settle;
    if e.Go? && s.place.Planning? {
      PlannedKeepsInv(s, s.place.setting);
    } else if e.Go? && s.place.Check? {
      InvAtPlace(s);
      SettleKeepsInv(s, if s.wake then Passed else Fired(s.now, s.place.woken), if s.wake then Clearing else Running);
    } else {
      PlaceStaysOk(s, e, t);
      PlansStayOk(s, t);
    }
  }

  lemma InvAtPlace(s: Sched)
    requires Inv(s)
    ensures PlaceOk(s)
    ensures s.plans != [] ==> Last(s).life <= s.life
  {
    hide IsNext, Before;
    assert s.plans != [] ==> PlanOk(s, Last(s));
  }

  lemma {:induction false} ExecKeepsInv(s: Sched, events: seq<Event>, t: Sched)
    requires Inv(s) && Exec(s, events) == Some(t)
    ensures Inv(t)
    decreases |events|
  {
    hide Inv, Next;
    if events != [] {
      var u := Next(s, events[0]).value;
      NextKeepsInv(s, events[0], u);
      ExecKeepsInv(u, events[1..], t);
    }
  }

  // In every history, with wakes, stops, restarts and configuration changes: what is planned
  // after a run lies after the start of that run, so a slot not run early is never run again.
  lemma FiresInOrder(now: int, events: seq<Event>, s: Sched, i: nat, j: nat)
    requires Exec(Fresh(now), events) == Some(s)
    requires i < j < |s.plans| && s.plans[i].fate.Fired?
    ensures s.plans[i].fate.at <= s.plans[j].base < s.plans[j].slot
    ensures !s.plans[i].fate.woken ==> s.plans[i].slot < s.plans[j].slot
  {
    ExecKeepsInv(Fresh(now), events, s);
    assert PlanOk(s, s.plans[i]) && PlanOk(s, s.plans[j]) && Before(s.plans[i], s.plans[j]);
  }

  // In every history: no run starts before its slot unless a wake ended the wait, and without
  // wake() none does.
  lemma NoRunIsEarly(now: int, events: seq<Event>, s: Sched, i: nat)
    requires Exec(Fresh(now), events) == Some(s)
    requires i < |s.plans| && s.plans[i].fate.Fired?
    ensures s.plans[i].fate.at < s.plans[i].slot ==> s.plans[i].fate.woken
    ensures Quiet(events) ==> s.plans[i].slot <= s.plans[i].fate.at
  {
    ExecKeepsInv(Fresh(now), events, s);
    assert PlanOk(s, s.plans[i]);
    hide Inv, PlanOk;
    if Quiet(events) {
      StartIsOk(now);
      ExecKeepsQuiet(Fresh(now), events, s);
    }
  }

  lemma StartIsOk(now: int)
    ensures Inv(Fresh(now)) && QuietInv(Fresh(now))
  {
  }

  // With one schedule, a slot is planned again exactly when the later call of
  // compute_next_run still came before it.
  lemma SameSlotExactly(times: seq<string>, base: int, slot: int, later: int, next: int)
    requires IsNext(times, base, slot) && IsNext(times, later, next) && base <= later
    ensures next == slot <==> later < slot
    ensures slot <= next
  {
  }

  /* ---------- histories without wake() ---------- */

  predicate Quiet(events: seq<Event>) {
    forall i :: 0 <= i < |events| ==> events[i] != Wake
  }

  // Without wake() the wake flag is only ever set by stop().
  ghost predicate QuietInv(s: Sched) {
    && (s.wake || s.halfStopped ==> s.stop)
    && (s.place.Drop? ==> s.stop)
    && (s.place.Leave? && s.place.woken ==> s.stop)
    && (s.place.Check? ==> !s.place.woken)
    && (PassedByThread(s) ==> s.place == Idle || (s.stop && (s.place == Clearing || s.place == Head)))
    && QuietPlans(s.plans)
  }

  predicate PassedByThread(s: Sched) {
    s.plans != [] && Last(s).life == s.life && Last(s).fate == Passed
  }

  predicate QuietPlans(plans: seq<Plan>) {
    && (forall i :: 0 <= i < |plans| ==> plans[i].fate.Fired? ==> !plans[i].fate.woken)
    && (forall i, j :: 0 <= i < j < |plans| ==> Kept(plans[i], plans[j]))
  }

  // A thread makes a new plan only after it has run the one before.
  predicate Kept(p: Plan, q: Plan) {
    p.fate.Fired? || p.life < q.life
  }

  lemma PlannedKeepsQuiet(s: Sched, setting: Setting)
    requires Inv(s) && QuietInv(s) && s.place == Planning(setting)
    ensures QuietInv(Planned(s, setting))
  {
    hide Inv, QuietPlans, IsNext, Parse, Readable;
    InvAtPlace(s);
    if Parse(setting).Times? {
      ParsedTimesAreReadable(setting);
      var times := Parse(setting).times;
      PlannedIs(s, setting);
      hide Planned;
      PlanKeepsQuiet(s.plans, Plan(s.life, times, s.now, NextRun(times, s.now), Open));
    }
  }

  lemma PlanKeepsQuiet(plans: seq<Plan>, p: Plan)
    requires QuietPlans(plans) && p.fate == Open
    requires plans != [] ==> plans[|plans| - 1].life <= p.life && Kept(plans[|plans| - 1], p)
    ensures QuietPlans(plans + [p])
  {
    var t := plans + [p];
    forall i, j | 0 <= i < j < |t| ensures Kept(t[i], t[j]) {
      if j == |plans| && i < |plans| - 1 {
        assert Kept(plans[i], plans[|plans| - 1]);
      }
    }
  }

  lemma SettleKeepsQuiet(s: Sched, fate: Fate)
    requires QuietPlans(s.plans) && s.plans != [] && (fate.Fired? ==> !fate.woken)
    ensures QuietPlans(Settle(s, fate))
  {
    var plans := Settle(s, fate);
    forall i, j | 0 <= i < j < |plans| ensures Kept(plans[i], plans[j]) {
      assert Kept(s.plans[i], s.plans[j]);
    }
  }

  lemma NextKeepsQuiet(s: Sched, e: Event, t: Sched)
    requires Inv(s) && QuietInv(s) && e != Wake && Next(s, e) == Some(t)
    ensures QuietInv(t)
  {
    hide Inv, QuietPlans, Planned, Settle;
    if e.Go? && s.place.Planning? {
      PlannedKeepsQuiet(s, s.place.setting);
    } else if e.Go? && s.place.Check? {
      PassKeepsQuiet(s, t);
    } else {
      InvAtPlace(s);
    }
  }

  lemma PassKeepsQuiet(s: Sched, t: Sched)
    requires Inv(s) && QuietInv(s) && s.place.Check? && Next(s, Go) == Some(t)
    ensures QuietInv(t)
  {
    hide Inv, QuietPlans;
    InvAtPlace(s);
    SettleKeepsQuiet(s, Last(t).fate);
  }

  lemma {:induction false} ExecKeepsQuiet(s: Sched, events: seq<Event>, t: Sched)
    requires Inv(s) && QuietInv(s) && Quiet(events) && Exec(s, events) == Some(t)
    ensures Inv(t) && QuietInv(t)
    decreases |events|
  {
    hide Inv, QuietInv, Next;
    if events != [] {
      assert events[0] != Wake;
      var u := Next(s, events[0]).value;
      NextKeepsInv(s, events[0], u);
      NextKeepsQuiet(s, events[0], u);
      ExecKeepsQuiet(u, events[1..], t);
    }
  }

  // Without wake(): no run starts before its slot, the slots that are run strictly increase
  // (so none is run twice), a thread runs every slot it plans before planning another, and
  // what lies between two slots it runs had already passed when it planned the second.
  lemma QuietRuns(now: int, events: seq<Event>, s: Sched, i: nat, j: nat)
    requires Quiet(events) && Exec(Fresh(now), events) == Some(s)
    requires i < j < |s.plans|
    ensures s.plans[i].fate.Fired? ==> s.plans[i].slot <= s.plans[i].fate.at <= s.plans[j].base
    ensures s.plans[i].fate.Fired? ==> s.plans[i].slot < s.plans[j].slot
    ensures s.plans[i].life == s.plans[j].life ==> s.plans[i].fate.Fired?
    ensures forall u :: DueAt(s.plans[j].times, u) && s.plans[j].base < u ==> s.plans[j].slot <= u
  {
    ExecKeepsQuiet(Fresh(now), events, s);
    var p, q := s.plans[i], s.plans[j];
    assert PlanOk(s, p) && PlanOk(s, q) && Before(p, q) && Kept(p, q);
  }

  /* ---------- a slot that has come is run ---------- */

  // The thread's own steps from a due slot, the shortest first.
  function ToTheRun(place: Place): seq<Event> {
    match place
    case Clock => [Go, Go, Go]
    case Inner => [Go, Go, Go, Go]
    case Poll => [Go, Go, Go, Go, Go]
    case _ => [TimeOut, Go, Go, Go, Go, Go]
  }

  // The thread needs no more time once its slot has come: its wait is over by then, and its
  // own steps lead straight into run_once.
  lemma {:induction false} DueSlotRuns(s: Sched)
    requires !s.stop && !s.wake && s.plans != []
    requires s.place.Clock? || s.place.Inner? || s.place.Poll? || s.place.Asleep?
    requires Slot(s) <= s.now && (s.place.Asleep? ==> s.place.until <= Slot(s))
    ensures Exec(s, ToTheRun(s.place)) == Some(s.(place := Running, plans := Settle(s, Fired(s.now, false))))
    decreases |ToTheRun(s.place)|
  {
    var events := ToTheRun(s.place);
    match s.place {
      case Asleep(_) =>
        DueSlotRuns(s.(place := Poll));
        assert events[1..] == ToTheRun(Poll);
      case Poll =>
        DueSlotRuns(s.(place := Inner));
        assert events[1..] == ToTheRun(Inner);
      case Inner =>
        DueSlotRuns(s.(place := Clock));
        assert events[1..] == ToTheRun(Clock);
      case Clock =>
        var t := s.(place := Leave(false));
        var u := s.(place := Check(false));
        assert Exec(u, [Go]) == Exec(Next(u, Go).value, []);
        assert Exec(t, [Go, Go]) == Exec(u, [Go]) by { assert [Go, Go][1..] == [Go]; }
        assert events[1..] == [Go, Go];
        assert Next(s, Go) == Some(t);
    }
  }

  /* ---------- stop() ---------- */

  // stop() sets the flag that ends the loop and the one that ends its wait.
  lemma StopSetsBothFlags(s: Sched)
    requires !s.halfStopped
    ensures Exec(s, [StopBegins, StopEnds]) == Some(s.(stop := true, wake := true))
  {
    assert [StopBegins, StopEnds][1..] == [StopEnds];
    var t := s.(stop := true, halfStopped := true);
    assert Next(s, StopBegins) == Some(t) && Exec(t, [StopEnds]) == Exec(Next(t, StopEnds).value, []);
  }

  // How many more steps of its own the thread can take once the stop flag is set.
  function Rank(place: Place): nat {
    match place
    case Idle => 0
    case Head => 1
    case Leave(_) => 1
    case Clearing => 2
    case Running => 2
    case PauseDrop => 2
    case Drop => 2
    case Inner => 2
    case Asleep(_) => 4
    case Check(_) => 3
    case PausePoll => 3
    case Poll => 3
    case Pause(_, _) => 4
    case Clock => 5
    case Planning(_) => 5
    case Loading => 6
  }

  predicate Own(e: Event) {
    e.Go? || e.TimeOut? || e.Load?
  }

  function OwnSteps(events: seq<Event>): nat {
    if events == [] then 0 else (if Own(events[0]) then 1 else 0) + OwnSteps(events[1..])
  }

  function Runs(plans: seq<Plan>): nat {
    if plans == [] then 0
    else Runs(plans[..|plans| - 1]) + if plans[|plans| - 1].fate.Fired? then 1 else 0
  }

  lemma RunsOfSettled(s: Sched, fate: Fate)
    requires s.plans != [] && Last(s).fate == Open
    ensures Runs(Settle(s, fate)) == Runs(s.plans) + if fate.Fired? then 1 else 0
  {
    assert Settle(s, fate)[..|s.plans| - 1] == s.plans[..|s.plans| - 1];
  }

  lemma RunsOfPlanned(plans: seq<Plan>, p: Plan)
    requires p.fate == Open
    ensures Runs(plans + [p]) == Runs(plans)
  {
    assert (plans + [p])[..|plans|] == plans;
  }

  // One step of a machine that was told to stop: the thread gets closer to its end, and it
  // starts a run only if it had already passed the last test of the stop flag.
  lemma StoppingStep(s: Sched, e: Event, t: Sched)
    requires Inv(s) && s.stop && Next(s, e) == Some(t) && t.life == s.life
    ensures t.stop
    ensures Rank(t.place) + (if Own(e) then 1 else 0) <= Rank(s.place)
    ensures Runs(t.plans) + (if t.place.Check? then 1 else 0) <= Runs(s.plans) + if s.place.Check? then 1 else 0
  {
    hide IsNext, PlanOk, Before, Parse, Runs;
    if e.Go? && s.place.Planning? && Parse(s.place.setting).Times? {
      RunsOfPlanned(s.plans, Last(t));
    } else if e.Go? && s.place.Check? {
      RunsOfSettled(s, Last(t).fate);
    }
  }

  lemma {:induction false} LivesGrow(s: Sched, events: seq<Event>, t: Sched)
    requires Exec(s, events) == Some(t)
    ensures s.life <= t.life
    decreases |events|
  {
    hide IsNext, Parse, Settle;
    if events != [] {
      LivesGrow(Next(s, events[0]).value, events[1..], t);
    }
  }

  // After stop() begins, at any point of the loop and until a new thread is started: the thread
  // takes at most six more steps of its own, and starts at most one more run, and that only if
  // it stood between its last two tests.
  lemma {:induction false} StopEndsLoop(s: Sched, events: seq<Event>, t: Sched)
    requires Inv(s) && s.stop && Exec(s, events) == Some(t) && t.life == s.life
    ensures t.stop
    ensures OwnSteps(events) + Rank(t.place) <= Rank(s.place) <= 6
    ensures Runs(t.plans) <= Runs(s.plans) + if s.place.Check? then 1 else 0
    decreases |events|
  {
    hide Inv, Next, Rank, Runs;
    if events != [] {
      var u := Next(s, events[0]).value;
      LivesGrow(u, events[1..], t);
      StoppingLife(s, events[0], u);
      NextKeepsInv(s, events[0], u);
      StoppingStep(s, events[0], u);
      StopEndsLoop(u, events[1..], t);
    }
    RankBound(s.place);
  }

  lemma RankBound(place: Place)
    ensures Rank(place) <= 6
  {
  }

  lemma StoppingLife(s: Sched, e: Event, t: Sched)
    requires Next(s, e) == Some(t)
    ensures s.life <= t.life
  {
    hide IsNext, Parse, Settle;
  }

  // And it is never stuck: until the thread has ended it has a step to take.
  lemma StoppingThreadMoves(s: Sched)
    requires Inv(s) && s.stop && s.place != Idle
    ensures if s.place == Loading then forall config :: Next(s, Load(config)).Some? else Next(s, Go).Some?
  {
    hide IsNext, PlanOk, Before;
  }

  // start() before the old thread has ended does nothing: that thread still ends, and none
  // takes its place.
  lemma StartWhileAlive(s: Sched, events: seq<Event>, t: Sched)
    requires Inv(s) && s.stop && s.place != Idle && !s.halfStopped
    requires Start !in events && Exec(s, [Start] + events) == Some(t)
    ensures t.life == s.life && OwnSteps(events) + Rank(t.place) <= Rank(s.place)
  {
    hide Inv, Rank, Runs, Thread, Exec;
    assert Next(s, Start) == Some(s);
    hide Next;
    ExecFirst(s, Start, events);
    SameLife(s, events, t);
    StopEndsLoop(s, events, t);
  }

  // So start() leaves a thread that is bound to end exactly if the old one was told to stop and
  // has not ended yet; otherwise the flag is clear and the thread goes on, or a new one does.
  lemma StartLeavesEndingThreadExactly(s: Sched)
    requires Inv(s) && !s.halfStopped
    ensures var t := Next(s, Start).value;
      && t.place != Idle
      && ((forall events, u :: Exec(t, events) == Some(u) && u.life == t.life ==> OwnSteps(events) <= 6)
          <==> s.stop && s.place != Idle)
  {
    hide Inv, Next, Exec, Rank;
    StartOutcome(s);
    var t := Next(s, Start).value;
    NextKeepsInv(s, Start, t);
    if t.stop {
      forall events, u | Exec(t, events) == Some(u) && u.life == t.life ensures OwnSteps(events) <= 6 {
        StopEndsLoop(t, events, u);
      }
    } else {
      var events, u := GoesOn(t, 7);
    }
  }

  // A thread that was not told to stop can take any number of steps.
  lemma {:induction false} GoesOn(s: Sched, n: nat) returns (events: seq<Event>, t: Sched)
    requires Inv(s) && !s.stop && s.place != Idle
    ensures Exec(s, events) == Some(t) && t.life == s.life && OwnSteps(events) == n
    decreases n
  {
    hide Inv, Next, Exec;
    if n == 0 {
      events, t := [], s;
      NoSteps(s);
    } else {
      var tick, e, u, v := OneMoreStep(s);
      NextKeepsInv(s, tick, u);
      NextKeepsInv(u, e, v);
      events, t := GoesOn(v, n - 1);
      ExecFirst(u, e, events);
      ExecFirst(s, tick, [e] + events);
      StepsOfFirst(e, events);
      StepsOfFirst(tick, [e] + events);
      events := [tick] + ([e] + events);
    }
  }

  lemma NoSteps(s: Sched)
    ensures Exec(s, []) == Some(s) && OwnSteps([]) == 0
  {
  }

  lemma StepsOfFirst(e: Event, events: seq<Event>)
    ensures OwnSteps([e] + events) == (if Own(e) then 1 else 0) + OwnSteps(events)
  {
    assert ([e] + events)[1..] == events;
  }

  // Time passes until the thread can take its next step.
  lemma OneMoreStep(s: Sched) returns (tick: Event, e: Event, t: Sched, u: Sched)
    requires Inv(s) && !s.stop && s.place != Idle
    ensures !Own(tick) && Own(e) && Next(s, tick) == Some(t) && Next(t, e) == Some(u)
    ensures !u.stop && u.place != Idle && u.life == s.life
  {
    hide Inv, Planned, Settle;
    InvAtPlace(s);
    var until := match s.place
      case Pause(until, _) => until
      case Asleep(until) => until
      case _ => s.now;
    tick := Tick(if until < s.now then s.now else until);
    e := if s.place.Pause? || s.place.Asleep? then TimeOut else if s.place == Loading then Load(Off) else Go;
    t := Next(s, tick).value;
    if s.place.Planning? {
      PlannedGoesOn(t, s.place.setting);
    }
    u := Next(t, e).value;
  }

  lemma PlannedGoesOn(s: Sched, setting: Setting)
    ensures var t := Planned(s, setting); t.place != Idle && t.stop == s.stop && t.life == s.life
  {
    hide IsNext, Parse;
  }

  lemma StartOutcome(s: Sched)
    requires !s.halfStopped
    ensures Next(s, Start).Some?
    ensures var t := Next(s, Start).value;
      t.place != Idle && !t.halfStopped && (t.stop <==> s.stop && s.place != Idle)
  {
  }

  lemma ExecFirst(s: Sched, e: Event, events: seq<Event>)
    requires Next(s, e).Some?
    ensures Exec(s, [e] + events) == Exec(Next(s, e).value, events)
  {
    hide Next;
    assert ([e] + events)[0] == e && ([e] + events)[1..] == events;
  }

  lemma {:induction false} SameLife(s: Sched, events: seq<Event>, t: Sched)
    requires Start !in events && Exec(s, events) == Some(t)
    ensures t.life == s.life
    decreases |events|
  {
    hide IsNext, Parse, Settle;
    if events != [] {
      SameLife(Next(s, events[0]).value, events[1..], t);
    }
  }

  /* ---------- what the configuration has to say ---------- */

  // Every plan follows a schedule that was loaded with the switch on, and without a plan there is
  // nothing to wait for or to run.
  ghost predicate Configured(s: Sched, past: seq<Event>) {
    && (s.place.Planning? ==> Load(On(s.place.setting)) in past)
    && (forall i :: 0 <= i < |s.plans| ==> IsLoaded(past, s.plans[i].times))
    && (HasPlan(s.place) || s.place == Running || s.place == Clearing ==> s.plans != [])
  }

  ghost predicate IsLoaded(past: seq<Event>, times: seq<string>) {
    exists setting :: Load(On(setting)) in past && Parse(setting) == Times(times)
  }

  lemma ConfiguredStep(s: Sched, past: seq<Event>, e: Event, t: Sched)
    requires Configured(s, past) && Next(s, e) == Some(t)
    ensures Configured(t, past + [e])
  {
    hide Planned, Parse, IsLoaded, Configured;
    if e.Go? && s.place.Planning? {
      ConfiguredPlan(s, past, s.place.setting);
    } else {
      ConfiguredMove(s, past, e, t);
    }
    ConfiguredLater(t, past, e);
  }

  lemma ConfiguredMove(s: Sched, past: seq<Event>, e: Event, t: Sched)
    requires Configured(s, past) && Next(s, e) == Some(t) && !(e.Go? && s.place.Planning?)
    ensures Configured(t, if e.Load? then past + [e] else past)
  {
    hide Parse, IsLoaded, Thread;
    if e.Go? {
      ConfiguredGo(s, past, t);
    } else {
      LoadedStays(past, e);
    }
  }

  lemma ConfiguredGo(s: Sched, past: seq<Event>, t: Sched)
    requires Configured(s, past) && Thread(s) == Some(t) && !s.place.Planning?
    ensures Configured(t, past)
  {
    hide Planned, Parse, IsLoaded, Settle;
    if s.place.Check? && s.plans != [] {
      SettledTimes(s, if s.wake then Passed else Fired(s.now, s.place.woken));
    }
  }

  lemma SettledTimes(s: Sched, fate: Fate)
    requires s.plans != []
    ensures |Settle(s, fate)| == |s.plans|
    ensures forall i :: 0 <= i < |s.plans| ==> Settle(s, fate)[i].times == s.plans[i].times
  {
  }

  lemma ConfiguredLater(s: Sched, past: seq<Event>, e: Event)
    requires Configured(s, past) || Configured(s, past + [e])
    ensures Configured(s, past + [e])
  {
    hide IsLoaded;
    LoadedStays(past, e);
  }

  lemma LoadedStays(past: seq<Event>, e: Event)
    ensures e in past + [e] && forall x :: x in past ==> x in past + [e]
    ensures forall times :: IsLoaded(past, times) ==> IsLoaded(past + [e], times)
  {
    hide Parse;
    forall times | IsLoaded(past, times) ensures IsLoaded(past + [e], times) {
      var setting :| Load(On(setting)) in past && Parse(setting) == Times(times);
      assert Load(On(setting)) in past + [e];
    }
  }

  lemma ConfiguredPlan(s: Sched, past: seq<Event>, setting: Setting)
    requires Configured(s, past) && s.place == Planning(setting)
    ensures Configured(Planned(s, setting), past)
  {
    hide IsNext, Parse, Readable;
    if Parse(setting).Times? {
      ParsedTimesAreReadable(setting);
      PlannedIs(s, setting);
      assert IsLoaded(past, Parse(setting).times);
    }
  }

  lemma {:induction false} ConfiguredHolds(s: Sched, past: seq<Event>, events: seq<Event>, t: Sched)
    requires Configured(s, past) && Exec(s, events) == Some(t)
    ensures Configured(t, past + events)
    decreases |events|
  {
    hide Configured, Next;
    if events == [] {
      assert past + events == past;
    } else {
      var u := Next(s, events[0]).value;
      ConfiguredStep(s, past, events[0], u);
      ConfiguredHolds(u, past + [events[0]], events[1..], t);
      assert past + [events[0]] + events[1..] == past + events;
    }
  }

  // In every history the times of every plan are those of a schedule that was loaded, switched on.
  lemma PlansFollowTheConfiguration(now: int, events: seq<Event>, s: Sched, i: nat)
    requires Exec(Fresh(now), events) == Some(s) && i < |s.plans|
    ensures exists setting :: Load(On(setting)) in events && Parse(setting) == Times(s.plans[i].times)
  {
    hide Exec, Parse;
    ConfiguredHolds(Fresh(now), [], events, s);
    assert [] + events == events;
    assert IsLoaded(events, s.plans[i].times);
  }

  // So while the switch is off, or the configuration cannot be read, nothing is planned or run.
  lemma SwitchedOffNeverRuns(now: int, events: seq<Event>, s: Sched)
    requires Exec(Fresh(now), events) == Some(s) && forall setting :: Load(On(setting)) !in events
    ensures s.plans == [] && s.place != Running
  {
    hide Exec, Parse;
    ConfiguredHolds(Fresh(now), [], events, s);
    assert [] + events == events;
    assert s.plans != [] ==> IsLoaded(events, s.plans[0].times);
  }

  // How long a configuration that cannot be used is left alone, in microseconds.
  function Rest(config: Config): int {
    match config
    case Unreadable => 30_000_000
    case Off => 10_000_000
    case On(setting) => if Parse(setting).Times? then 0 else 30_000_000
  }

  // The thread is resting until `end`, the rest is over, or it has been told to stop.
  ghost predicate Resting(s: Sched, life: nat, end: int) {
    || s.life != life
    || end <= s.now
    || s.place == Idle
    || (s.stop && s.place == Head)
    || (s.place.Pause? && end <= s.place.until)
    || (s.place.Planning? && !Parse(s.place.setting).Times? && end <= s.now + 30_000_000)
  }

  lemma {:induction false} RestHolds(s: Sched, events: seq<Event>, t: Sched, life: nat, end: int)
    requires s.life >= life && Resting(s, life, end) && Exec(s, events) == Some(t)
    ensures Resting(t, life, end)
    decreases |events|
  {
    hide Planned, Settle, Parse;
    if events != [] {
      var u := Next(s, events[0]).value;
      if events[0].Go? && s.place.Planning? {
        PlannedRests(s, s.place.setting);
      }
      RestHolds(u, events[1..], t, life, end);
    }
  }

  lemma PlannedRests(s: Sched, setting: Setting)
    ensures Planned(s, setting).now == s.now && Planned(s, setting).life == s.life
    ensures !Parse(setting).Times? ==> Planned(s, setting).place == Pause(s.now + 30_000_000, true)
  {
    hide IsNext, Parse;
  }

  // The same thread does not load the configuration again before the rest is over: 10 s when
  // switched off, 30 s when the file or the times cannot be read.
  lemma UnusableConfigurationRests(s: Sched, config: Config, events: seq<Event>, t: Sched)
    requires s.place == Loading && Rest(config) > 0
    requires Exec(s, [Load(config)] + events) == Some(t) && t.place == Loading && t.life == s.life
    ensures s.now + Rest(config) <= t.now
  {
    var u := Next(s, Load(config)).value;
    hide Exec, Parse;
    ExecFirst(s, Load(config), events);
    RestHolds(u, events, t, s.life, s.now + Rest(config));
  }
}
