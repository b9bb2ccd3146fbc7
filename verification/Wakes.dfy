// What wake() does to the upload scheduler, exactly: when it makes the thread run a slot early,
// when it makes it pass a slot over, and for how long
// (cc_usage_reporter/cc_usage_reporter/scheduler.py:84-85 and :148-173).
module Wakes {
  import opened Options
  import opened Schedule
  import opened Scheduler

  /* ---------- histories, step by step ---------- */

  // A thread that is about to compute its next run.
  predicate Ready(s: Sched, setting: Setting) {
    s.place == Planning(setting) && !s.stop && !s.wake && !s.halfStopped && Parse(setting).Times?
  }

  // A history written down state by state.
  ghost predicate Trace(states: seq<Sched>, events: seq<Event>) {
    |states| == |events| + 1 && forall i :: 0 <= i < |events| ==> Next(states[i], events[i]) == Some(states[i + 1])
  }

  lemma {:induction false} ExecTrace(states: seq<Sched>, events: seq<Event>)
    requires Trace(states, events)
    ensures Exec(states[0], events) == Some(states[|events|])
    decreases |events|
  {
    hide Next;
    if events != [] {
      assert Next(states[0], events[0]) == Some(states[1]);
      ExecTrace(states[1..], events[1..]);
    }
  }

  lemma {:induction false} ExecConcat(s: Sched, a: seq<Event>, t: Sched, b: seq<Event>)
    requires Exec(s, a) == Some(t)
    ensures Exec(s, a + b) == Exec(t, b)
    decreases |a|
  {
    hide Next;
    if a == [] {
      assert a + b == b;
    } else {
      assert (a + b)[1..] == a[1..] + b;
      ExecConcat(Next(s, a[0]).value, a[1..], t, b);
    }
  }

  lemma PlansNext(s: Sched, setting: Setting, slot: int)
    requires s.place == Planning(setting) && Parse(setting).Times? && IsNext(Parse(setting).times, s.now, slot)
    ensures Next(s, Go) == Some(WithPlan(s, Parse(setting).times, slot))
  {
    hide IsNext, Parse, ClockOf;
    var times := Parse(setting).times;
    ParsedTimesAreReadable(setting);
    NextWithinADay(times, s.now, slot);
    assert NextRun(times, s.now) == slot;
    PlannedIs(s, setting);
    hide Planned;
    assert Thread(s) == Some(Planned(s, setting));
  }

  lemma FallsAsleep(s: Sched)
    requires s.place == Inner && !s.stop && s.plans != [] && s.now + 30_000_000 < Slot(s)
    ensures Exec(s, [Go, Go]) == Some(s.(place := Asleep(s.now + 30_000_000)))
  {
    hide Planned, Settle;
    ExecTrace([s, s.(place := Clock), s.(place := Asleep(s.now + 30_000_000))], [Go, Go]);
  }

  lemma WokenDuringWait(s: Sched, until: int)
    requires s.place == Asleep(until) && !s.stop && !s.wake && !s.halfStopped && s.now <= until
    ensures Exec(s, [Wake, Tick(until), TimeOut]) == Some(s.(now := until, place := Poll, wake := true))
  {
    ExecTrace([s, s.(wake := true), s.(now := until, wake := true), s.(now := until, place := Poll, wake := true)],
              [Wake, Tick(until), TimeOut]);
  }

  lemma LeavesWoken(s: Sched)
    requires s.place == Poll && s.wake && !s.stop
    ensures Exec(s, [Go, Go, Go]) == Some(s.(place := Check(true), wake := false))
  {
    ExecTrace([s, s.(place := Drop), s.(place := Leave(true), wake := false), s.(place := Check(true), wake := false)],
              [Go, Go, Go]);
  }

  lemma RunsFromCheck(s: Sched, woken: bool)
    requires s.place == Check(woken) && !s.wake && s.plans != []
    ensures Exec(s, [Go]) == Some(s.(place := Running, plans := Settle(s, Fired(s.now, woken))))
  {
    ExecTrace([s, s.(place := Running, plans := Settle(s, Fired(s.now, woken)))], [Go]);
  }

  // wake() during a wait that ends before the slot: the thread runs at the end of that wait.
  lemma WakeRunsEarly(s: Sched, setting: Setting, slot: int) returns (events: seq<Event>, t: Sched)
    requires Ready(s, setting) && IsNext(Parse(setting).times, s.now, slot) && s.now + 30_000_000 < slot
    ensures Exec(s, events) == Some(t)
    ensures t == s.(now := s.now + 30_000_000, place := Running,
                    plans := s.plans + [Plan(s.life, Parse(setting).times, s.now, slot,
                        Fired(s.now + 30_000_000, true))])
  {
    hide IsNext, Parse, Next, Exec;
    var until := s.now + 30_000_000;
    var p := WithPlan(s, Parse(setting).times, slot);
    PlansNext(s, setting, slot);
    ExecTrace([s, p], [Go]);
    FallsAsleep(p);
    ExecConcat(s, [Go], p, [Go, Go]);
    WokenDuringWait(p.(place := Asleep(until)), until);
    ExecConcat(s, [Go] + [Go, Go], p.(place := Asleep(until)), [Wake, Tick(until), TimeOut]);
    t := EarlyEnd(p.(now := until, place := Poll, wake := true));
    events := [Go] + [Go, Go] + [Wake, Tick(until), TimeOut] + ([Go, Go, Go] + [Go]);
    ExecConcat(s, [Go] + [Go, Go] + [Wake, Tick(until), TimeOut],
               p.(now := until, place := Poll, wake := true), [Go, Go, Go] + [Go]);
  }

  lemma EarlyEnd(s: Sched) returns (t: Sched)
    requires s.place == Poll && s.wake && !s.stop && s.plans != []
    ensures Exec(s, [Go, Go, Go] + [Go]) == Some(t)
    ensures t == s.(place := Running, wake := false, plans := Settle(s, Fired(s.now, true)))
  {
    hide Next, Exec;
    var u := s.(place := Check(true), wake := false);
    LeavesWoken(s);
    RunsFromCheck(u, true);
    ExecConcat(s, [Go, Go, Go], u, [Go]);
    t := u.(place := Running, plans := Settle(u, Fired(u.now, true)));
  }

  lemma NextIsLater(times: seq<string>, now: int, slot: int)
    requires IsNext(times, now, slot)
    ensures now < slot
  {
  }

  // With nothing in the way the thread runs its slot when it comes.
  lemma RunsInTime(s: Sched, setting: Setting, slot: int) returns (events: seq<Event>, t: Sched)
    requires Ready(s, setting) && IsNext(Parse(setting).times, s.now, slot)
    ensures Exec(s, events) == Some(t)
    ensures t == s.(now := slot, place := Running,
                    plans := s.plans + [Plan(s.life, Parse(setting).times, s.now, slot, Fired(slot, false))])
  {
    hide IsNext, Parse, Next, Exec, ToTheRun;
    NextIsLater(Parse(setting).times, s.now, slot);
    var p := WithPlan(s, Parse(setting).times, slot);
    PlansNext(s, setting, slot);
    t := RunsWhenDue(p, slot);
    events := [Go] + ([Tick(slot)] + ToTheRun(Inner));
    ExecTrace([s, p], [Go]);
    ExecConcat(s, [Go], p, [Tick(slot)] + ToTheRun(Inner));
  }

  lemma RunsWhenDue(s: Sched, slot: int) returns (t: Sched)
    requires s.place == Inner && !s.stop && !s.wake && s.plans != [] && Slot(s) == slot && s.now <= slot
    ensures Exec(s, [Tick(slot)] + ToTheRun(Inner)) == Some(t)
    ensures t == s.(now := slot, place := Running, plans := Settle(s, Fired(slot, false)))
  {
    hide ToTheRun;
    var u := s.(now := slot);
    ExecTrace([s, u], [Tick(slot)]);
    DueSlotRuns(u);
    t := u.(place := Running, plans := Settle(u, Fired(slot, false)));
    hide Exec;
    ExecConcat(s, [Tick(slot)], u, ToTheRun(Inner));
  }

  // So wake() can make the thread run a slot twice: early, and again when it comes.
  lemma WakeRunsSlotTwice(s: Sched, setting: Setting, slot: int) returns (events: seq<Event>, t: Sched)
    requires Ready(s, setting) && IsNext(Parse(setting).times, s.now, slot) && s.now + 30_000_000 < slot
    ensures Exec(s, events) == Some(t)
    ensures t.plans == s.plans
              + [Plan(s.life, Parse(setting).times, s.now, slot, Fired(s.now + 30_000_000, true))]
              + [Plan(s.life, Parse(setting).times, s.now + 30_000_000, slot, Fired(slot, false))]
  {
    var first, u := WakeRunsEarly(s, setting, slot);
    assert IsNext(Parse(setting).times, u.now, slot);
    hide IsNext, Parse, Exec;
    var back, v := BackToPlanning(u, setting);
    var second;
    second, t := RunsInTime(v, setting, slot);
    ExecConcat(s, first, u, back);
    ExecConcat(s, first + back, v, second);
    events := first + back + second;
  }

  lemma BackToPlanning(s: Sched, setting: Setting) returns (events: seq<Event>, t: Sched)
    requires s.place == Running && !s.stop
    ensures Exec(s, events) == Some(t) && t == s.(place := Planning(setting))
  {
    events, t := [Go, Go, Load(On(setting))], s.(place := Planning(setting));
    ExecTrace([s, s.(place := Head), s.(place := Loading), t], events);
  }

  ghost predicate PlannedAfter(s: Sched, n: nat, now: int) {
    && now <= s.now
    && forall j :: n <= j < |s.plans| ==> now <= s.plans[j].base < s.plans[j].slot
  }

  lemma StaysPlannedAfter(s: Sched, e: Event, t: Sched, n: nat, now: int)
    requires PlannedAfter(s, n, now) && Next(s, e) == Some(t)
    ensures PlannedAfter(t, n, now)
  {
    hide Planned, Parse;
    if e.Go? && s.place.Planning? {
      NewPlanIsAfter(s, s.place.setting, n, now);
    }
  }

  lemma NewPlanIsAfter(s: Sched, setting: Setting, n: nat, now: int)
    requires PlannedAfter(s, n, now)
    ensures PlannedAfter(Planned(s, setting), n, now)
  {
    hide IsNext, Parse, Readable;
    if Parse(setting).Times? {
      ParsedTimesAreReadable(setting);
      PlannedIs(s, setting);
      NextIsLater(Parse(setting).times, s.now, NextRun(Parse(setting).times, s.now));
    }
  }

  lemma {:induction false} LaterPlansAreLater(s: Sched, events: seq<Event>, t: Sched, n: nat, now: int)
    requires PlannedAfter(s, n, now) && Exec(s, events) == Some(t)
    ensures PlannedAfter(t, n, now)
    decreases |events|
  {
    hide PlannedAfter, Next;
    if events != [] {
      var u := Next(s, events[0]).value;
      StaysPlannedAfter(s, events[0], u, n, now);
      LaterPlansAreLater(u, events[1..], t, n, now);
    }
  }

  /* ---------- when a wake makes a run early ---------- */

  // What happens besides calls of start(), stop() and wake().
  predicate Undisturbed(events: seq<Event>) {
    forall i :: 0 <= i < |events| ==> IsUndisturbed(events[i])
  }

  predicate IsUndisturbed(e: Event) {
    e.Tick? || e.Go? || e.TimeOut? || e.Load?
  }

  predicate IsRunEarly(s: Sched, p: int) {
    0 <= p < |s.plans| && s.plans[p].fate.Fired? && s.plans[p].fate.at < s.plans[p].slot
  }

  predicate IsPassed(s: Sched, p: int) {
    0 <= p < |s.plans| && s.plans[p].fate == Passed
  }

  ghost predicate LeadsToEarlyRun(s: Sched, events: seq<Event>, p: int) {
    Exec(s, events).Some? && IsRunEarly(Exec(s, events).value, p)
  }

  ghost predicate LeadsToPass(s: Sched, events: seq<Event>, p: int) {
    Exec(s, events).Some? && IsPassed(Exec(s, events).value, p)
  }

  // The thread is, or can be, in a wait that ends before its slot.
  predicate CanRunEarly(s: Sched)
    requires s.plans != []
  {
    match s.place
    case Inner => s.now + 30_000_000 < Slot(s)
    case Clock => s.now + 30_000_000 < Slot(s)
    case Asleep(until) => until < Slot(s) && s.now < Slot(s)
    case Poll => s.now < Slot(s)
    case Drop => s.now < Slot(s)
    case _ => false
  }

  // A thread with a slot still to be decided, not told to stop.
  ghost predicate Undecided(s: Sched) {
    Inv(s) && HasPlan(s.place) && !s.stop && !s.halfStopped
  }

  lemma UndecidedFacts(s: Sched)
    requires Undecided(s)
    ensures s.plans != [] && Last(s).fate == Open && Last(s).life == s.life
    ensures || s.place.Inner? || s.place.Clock? || s.place.Asleep? || s.place.Poll? || s.place.Drop?
            || s.place.Leave? || s.place.Check?
  {
    hide IsNext, PlanOk, Before;
  }

  // A wake that is pending makes the thread run its slot early, in some continuation, exactly if
  // the thread is before the end of a wait that ends before the slot: one that began, or can
  // begin, more than 30 s ahead of it.
  lemma PendingRunsEarlyExactly(s: Sched)
    requires Undecided(s) && s.wake
    ensures s.plans != []
    ensures (exists events :: Undisturbed(events) && LeadsToEarlyRun(s, events, |s.plans| - 1)) <==> CanRunEarly(s)
  {
    UndecidedFacts(s);
    hide *;
    if CanRunEarly(s) {
      var events := EarlyIsPossible(s);
    } else {
      forall events | Undisturbed(events) ensures !LeadsToEarlyRun(s, events, |s.plans| - 1) {
        EarlyNeedsRoom(s, events);
      }
    }
  }

  lemma EarlyIsPossible(s: Sched) returns (events: seq<Event>)
    requires Undecided(s) && s.wake && s.plans != [] && CanRunEarly(s)
    ensures Undisturbed(events) && LeadsToEarlyRun(s, events, |s.plans| - 1)
  {
    hide Exec, Next, Inv, IsRunEarly;
    var t;
    events, t := EarlyTrace(s);
  }

  lemma EarlyNeedsRoom(s: Sched, events: seq<Event>)
    requires Undecided(s) && s.wake && s.plans != [] && !CanRunEarly(s) && Undisturbed(events)
    ensures !LeadsToEarlyRun(s, events, |s.plans| - 1)
  {
    StuckAtStart(s);
    hide Exec, Next, Inv, CanRunEarly, NeverEarly, IsRunEarly, Undisturbed;
    if Exec(s, events).Some? {
      StaysLate(s, events, Exec(s, events).value, |s.plans|);
    }
  }

  // So wake() can make the thread run its slot early under the same condition.
  lemma WakeRunsEarlyExactly(s: Sched)
    requires Undecided(s) && !s.wake
    ensures s.plans != []
    ensures (exists events :: Undisturbed(events) && LeadsToEarlyRun(s, [Wake] + events, |s.plans| - 1))
        <==> CanRunEarly(s)
  {
    UndecidedFacts(s);
    var w := Woken(s);
    SameDecision(s, w);
    hide *;
    forall events
      ensures LeadsToEarlyRun(s, [Wake] + events, |s.plans| - 1) <==> LeadsToEarlyRun(w, events, |s.plans| - 1)
    {
      AfterWake(s, w, events, |s.plans| - 1);
    }
    PendingRunsEarlyExactly(w);
  }

  lemma AfterWake(s: Sched, w: Sched, events: seq<Event>, p: int)
    requires Next(s, Wake) == Some(w)
    ensures LeadsToEarlyRun(s, [Wake] + events, p) <==> LeadsToEarlyRun(w, events, p)
    ensures LeadsToPass(s, [Wake] + events, p) <==> LeadsToPass(w, events, p)
  {
    hide Next, Exec, IsRunEarly, IsPassed;
    ExecFirst(s, Wake, events);
  }

  lemma SameDecision(s: Sched, w: Sched)
    requires Undecided(s) && Inv(w) && w == s.(wake := true)
    ensures Undecided(w) && w.wake && w.plans == s.plans && w.place == s.place
    ensures s.plans != [] ==> (CanRunEarly(w) <==> CanRunEarly(s))
  {
    hide Inv;
  }

  lemma Woken(s: Sched) returns (w: Sched)
    requires Inv(s) && !s.halfStopped
    ensures Next(s, Wake) == Some(w) && w == s.(wake := true) && Inv(w)
  {
    hide Inv, Thread;
    w := s.(wake := true);
    NextKeepsInv(s, Wake, w);
  }

  // The shortest way to the early run.
  lemma {:induction false} EarlyTrace(s: Sched) returns (events: seq<Event>, t: Sched)
    requires s.plans != [] && s.wake && !s.stop && CanRunEarly(s)
    ensures Undisturbed(events) && Exec(s, events) == Some(t) && IsRunEarly(t, |s.plans| - 1)
    decreases Rank(s.place)
  {
    hide Next, Exec;
    match s.place {
      case Inner =>
        var u := s.(place := Asleep(s.now + 30_000_000));
        FallsAsleep(s);
        events, t := EarlyFromWait(u);
        ExecConcat(s, [Go, Go], u, events);
        events := [Go, Go] + events;
      case Clock =>
        var u := s.(place := Asleep(s.now + 30_000_000));
        SleepsFromClock(s);
        events, t := EarlyFromWait(u);
        ExecConcat(s, [Go], u, events);
        events := [Go] + events;
      case Asleep(_) =>
        events, t := EarlyFromWait(s);
      case Poll =>
        t := EarlyEnd(s);
        events := [Go, Go, Go] + [Go];
      case Drop =>
        events, t := EarlyFromDrop(s);
    }
  }

  lemma SleepsFromClock(s: Sched)
    requires s.place == Clock && s.plans != [] && s.now + 30_000_000 < Slot(s)
    ensures Exec(s, [Go]) == Some(s.(place := Asleep(s.now + 30_000_000)))
  {
    hide Planned, Settle;
    ExecTrace([s, s.(place := Asleep(s.now + 30_000_000))], [Go]);
  }

  lemma EarlyFromWait(s: Sched) returns (events: seq<Event>, t: Sched)
    requires s.plans != [] && s.wake && !s.stop && s.place.Asleep? && s.place.until < Slot(s) && s.now < Slot(s)
    ensures Undisturbed(events) && Exec(s, events) == Some(t) && IsRunEarly(t, |s.plans| - 1)
  {
    hide Exec;
    var end := if s.now < s.place.until then s.place.until else s.now;
    var u := s.(now := end, place := Poll);
    WaitEnds(s, end);
    t := EarlyEnd(u);
    ExecConcat(s, [Tick(end), TimeOut], u, [Go, Go, Go] + [Go]);
    events := [Tick(end), TimeOut] + ([Go, Go, Go] + [Go]);
  }

  lemma WaitEnds(s: Sched, end: int)
    requires s.place.Asleep? && s.place.until <= end && s.now <= end
    ensures Exec(s, [Tick(end), TimeOut]) == Some(s.(now := end, place := Poll))
  {
    ExecTrace([s, s.(now := end), s.(now := end, place := Poll)], [Tick(end), TimeOut]);
  }

  lemma EarlyFromDrop(s: Sched) returns (events: seq<Event>, t: Sched)
    requires s.plans != [] && !s.stop && s.place == Drop && s.now < Slot(s)
    ensures Undisturbed(events) && Exec(s, events) == Some(t) && IsRunEarly(t, |s.plans| - 1)
  {
    var u := s.(place := Check(true), wake := false);
    ExecTrace([s, s.(place := Leave(true), wake := false), u], [Go, Go]);
    hide Next, Exec;
    RunsFromCheck(u, true);
    ExecConcat(s, [Go, Go], u, [Go]);
    events, t := [Go, Go] + [Go], u.(place := Running, plans := Settle(u, Fired(u.now, true)));
  }

  // Plan n - 1 has not been run early and will not be: it is settled, its slot has come, or the
  // thread cannot get to run_once before that.
  ghost predicate NeverEarly(s: Sched, n: nat) {
    && 1 <= n <= |s.plans| && !IsRunEarly(s, n - 1)
    && (s.plans[n - 1].fate == Open && s.now < s.plans[n - 1].slot ==>
          && |s.plans| == n && !s.stop && s.wake
          && match s.place
             case Inner => Slot(s) <= s.now + 30_000_000
             case Clock => Slot(s) <= s.now + 30_000_000
             case Asleep(until) => Slot(s) <= until
             case Leave(_) => true
             case Check(_) => true
             case _ => false)
  }

  lemma StuckAtStart(s: Sched)
    requires Undecided(s) && s.wake && s.plans != [] && !CanRunEarly(s)
    ensures NeverEarly(s, |s.plans|)
  {
    hide IsNext, PlanOk, Before;
  }

  lemma NeverEarlyStep(s: Sched, n: nat, e: Event, t: Sched)
    requires Inv(s) && NeverEarly(s, n) && IsUndisturbed(e) && Next(s, e) == Some(t)
    ensures NeverEarly(t, n)
  {
    hide Inv, Planned;
    InvAtPlace(s);
    if e.Go? && s.place.Planning? {
      PlannedGrows(s, s.place.setting);
    }
  }

  lemma PlannedGrows(s: Sched, setting: Setting)
    ensures var t := Planned(s, setting);
      s.plans <= t.plans && t.now == s.now && t.life == s.life && t.wake == s.wake && t.stop == s.stop
      && (t.place == Inner || t.place == Pause(s.now + 30_000_000, true))
  {
    hide IsNext, Parse;
  }

  lemma {:induction false} StaysLate(s: Sched, events: seq<Event>, t: Sched, n: nat)
    requires Inv(s) && NeverEarly(s, n) && Undisturbed(events) && Exec(s, events) == Some(t)
    ensures !IsRunEarly(t, n - 1)
    decreases |events|
  {
    hide Inv, NeverEarly, Next;
    if events == [] {
      NeverEarlyNow(s, n);
    } else {
      var u := Next(s, events[0]).value;
      NextKeepsInv(s, events[0], u);
      NeverEarlyStep(s, n, events[0], u);
      StaysLate(u, events[1..], t, n);
    }
  }

  lemma NeverEarlyNow(s: Sched, n: nat)
    requires NeverEarly(s, n)
    ensures !IsRunEarly(s, n - 1)
  {
  }

  /* ---------- when a wake makes the thread pass a slot over ---------- */

  // A wake that is pending makes the thread pass its slot over, in some continuation, exactly if
  // it is outside the wait: before the thread looks at the clock and finds the slot has come,
  // or after the wait's own test.
  lemma PendingPassesExactly(s: Sched)
    requires Undecided(s) && s.wake
    ensures s.plans != []
    ensures (exists events :: Undisturbed(events) && LeadsToPass(s, events, |s.plans| - 1)) <==> OutsideWait(s.place)
  {
    UndecidedFacts(s);
    hide *;
    if OutsideWait(s.place) {
      var events := PassIsPossible(s);
    } else {
      forall events | Undisturbed(events) ensures !LeadsToPass(s, events, |s.plans| - 1) {
        PassNeedsTest(s, events);
      }
    }
  }

  lemma PassIsPossible(s: Sched) returns (events: seq<Event>)
    requires Undecided(s) && s.wake && s.plans != [] && OutsideWait(s.place)
    ensures Undisturbed(events) && LeadsToPass(s, events, |s.plans| - 1)
  {
    hide Exec, Next, Inv, IsPassed;
    var t;
    events, t := PassTrace(s);
  }

  lemma PassNeedsTest(s: Sched, events: seq<Event>)
    requires Undecided(s) && s.plans != [] && !OutsideWait(s.place) && Undisturbed(events)
    ensures !LeadsToPass(s, events, |s.plans| - 1)
  {
    UndecidedFacts(s);
    DecidedByPoll(s);
    hide Exec, Next, Inv, NeverPassed, IsPassed, Undisturbed;
    if Exec(s, events).Some? {
      StaysUnpassed(s, events, Exec(s, events).value, |s.plans|);
    }
  }

  predicate OutsideWait(place: Place) {
    place.Inner? || place.Clock? || place.Leave? || place.Check?
  }

  // And so does wake().
  lemma WakePassesExactly(s: Sched)
    requires Undecided(s) && !s.wake
    ensures s.plans != []
    ensures (exists events :: Undisturbed(events) && LeadsToPass(s, [Wake] + events, |s.plans| - 1))
        <==> OutsideWait(s.place)
  {
    UndecidedFacts(s);
    var w := Woken(s);
    SameDecision(s, w);
    hide *;
    forall events ensures LeadsToPass(s, [Wake] + events, |s.plans| - 1) <==> LeadsToPass(w, events, |s.plans| - 1) {
      AfterWake(s, w, events, |s.plans| - 1);
    }
    PendingPassesExactly(w);
  }

  // A wake that comes before the slot is planned is still pending when it is: from there the
  // thread can run the slot early exactly if it is more than 30 s away, and can pass it over.
  lemma WakeBeforePlanExactly(s: Sched, setting: Setting, slot: int, t: Sched)
    requires Inv(s) && Ready(s, setting) && IsNext(Parse(setting).times, s.now, slot)
    requires Exec(s, [Wake, Go]) == Some(t)
    ensures t == WithPlan(s, Parse(setting).times, slot).(wake := true)
    ensures (exists events :: Undisturbed(events) && LeadsToEarlyRun(t, events, |s.plans|))
        <==> s.now + 30_000_000 < slot
    ensures exists events :: Undisturbed(events) && LeadsToPass(t, events, |s.plans|)
  {
    hide Inv, Exec, Next, Parse, IsNext, Undisturbed, IsRunEarly, IsPassed;
    var w := Woken(s);
    PlansNext(w, setting, slot);
    var u := WithPlan(w, Parse(setting).times, slot);
    ExecTrace([s, w, u], [Wake, Go]);
    NextKeepsInv(w, Go, u);
    PendingRunsEarlyExactly(t);
    PendingPassesExactly(t);
  }

  // The test after a pause clears a wake; the pause after an unreadable file has no such test.
  lemma PauseEnds(s: Sched)
    requires s.place.Pause? && s.place.until <= s.now && s.wake
    ensures if s.place.polls
            then Exec(s, [TimeOut, Go, Go]) == Some(s.(place := Head, wake := false))
            else Exec(s, [TimeOut]) == Some(s.(place := Head))
  {
    hide Planned, Settle;
    if s.place.polls {
      ExecTrace([s, s.(place := PausePoll), s.(place := PauseDrop), s.(place := Head, wake := false)],
          [TimeOut, Go, Go]);
    } else {
      ExecTrace([s, s.(place := Head)], [TimeOut]);
    }
  }

  // So a wake outlives a file that cannot be read, and not a switch that is off.
  lemma WakeAndConfiguration(s: Sched)
    requires s.place == Loading && s.wake
    ensures
      var end := s.now + 30_000_000;
      Exec(s, [Load(Unreadable), Tick(end), TimeOut]) == Some(s.(now := end, place := Head))
    ensures
      var end := s.now + 10_000_000;
      Exec(s, [Load(Off), Tick(end), TimeOut, Go, Go]) == Some(s.(now := end, place := Head, wake := false))
  {
    hide Planned, Settle, Exec;
    var late, later := s.(now := s.now + 10_000_000), s.(now := s.now + 30_000_000);
    var p, q := Pause(s.now + 10_000_000, true), Pause(s.now + 30_000_000, false);
    ExecTrace([s, s.(place := q), later.(place := q), later.(place := Head)],
              [Load(Unreadable), Tick(later.now), TimeOut]);
    ExecTrace([s, s.(place := p), late.(place := p)], [Load(Off), Tick(late.now)]);
    PauseEnds(late.(place := p));
    ExecConcat(s, [Load(Off), Tick(late.now)], late.(place := p), [TimeOut, Go, Go]);
    assert [Load(Off), Tick(late.now)] + [TimeOut, Go, Go] == [Load(Off), Tick(late.now), TimeOut, Go, Go];
  }

  // Wherever else the thread is with no slot planned, a wake stays pending until it plans one or
  // the test after a pause clears it.
  lemma WakeStaysPending(s: Sched, e: Event, t: Sched)
    requires !HasPlan(s.place) && s.wake && IsUndisturbed(e) && Next(s, e) == Some(t)
    ensures !t.wake <==> e.Go? && (s.place == PauseDrop || s.place == Clearing)
    ensures HasPlan(t.place) ==> t.wake && t.place == Inner
  {
    hide Planned;
    if e.Go? && s.place.Planning? {
      PlannedGrows(s, s.place.setting);
    }
  }

  lemma PassTrace(s: Sched) returns (events: seq<Event>, t: Sched)
    requires s.plans != [] && s.wake && !s.stop
    requires OutsideWait(s.place)
    ensures Undisturbed(events) && Exec(s, events) == Some(t) && IsPassed(t, |s.plans| - 1)
  {
    hide Next, Exec;
    if s.place.Check? {
      events, t := PassFromCheck(s);
    } else if s.place.Leave? {
      events, t := PassFromLeave(s);
    } else {
      var end := if s.now < Slot(s) then Slot(s) else s.now;
      var u := s.(now := end, place := Leave(false));
      var way := if s.place.Clock? then [Tick(end), Go] else [Tick(end), Go, Go];
      ClockFindsSlot(s, end);
      events, t := PassFromLeave(u);
      ExecConcat(s, way, u, events);
      events := way + events;
    }
  }

  lemma ClockFindsSlot(s: Sched, end: int)
    requires s.plans != [] && !s.stop && Slot(s) <= end && s.now <= end
    ensures s.place == Clock ==> Exec(s, [Tick(end), Go]) == Some(s.(now := end, place := Leave(false)))
    ensures s.place == Inner ==> Exec(s, [Tick(end), Go, Go]) == Some(s.(now := end, place := Leave(false)))
  {
    var u := s.(now := end);
    if s.place == Clock {
      ExecTrace([s, u, u.(place := Leave(false))], [Tick(end), Go]);
    } else if s.place == Inner {
      ExecTrace([s, u, u.(place := Clock), u.(place := Leave(false))], [Tick(end), Go, Go]);
    }
  }

  lemma PassFromLeave(s: Sched) returns (events: seq<Event>, t: Sched)
    requires s.plans != [] && s.wake && !s.stop && s.place.Leave?
    ensures Undisturbed(events) && Exec(s, events) == Some(t) && IsPassed(t, |s.plans| - 1)
  {
    var u := s.(place := Check(s.place.woken));
    ExecTrace([s, u], [Go]);
    hide Next, Exec;
    events, t := PassFromCheck(u);
    ExecConcat(s, [Go], u, events);
    events := [Go] + events;
  }

  lemma PassFromCheck(s: Sched) returns (events: seq<Event>, t: Sched)
    requires s.plans != [] && s.wake && s.place.Check?
    ensures events == [Go] && Exec(s, events) == Some(t)
    ensures t == s.(place := Clearing, plans := Settle(s, Passed))
  {
    events, t := [Go], s.(place := Clearing, plans := Settle(s, Passed));
    ExecTrace([s, t], events);
  }

  // Plan n - 1 is not passed over and will not be: a wake that is pending is seen by the test
  // after the wait, which clears it.
  ghost predicate NeverPassed(s: Sched, n: nat) {
    && 1 <= n <= |s.plans| && !IsPassed(s, n - 1)
    && (s.plans[n - 1].fate == Open ==>
          && |s.plans| == n && s.plans[n - 1].life == s.life
          && (s.wake ==> s.place.Asleep? || s.place.Poll? || s.place.Drop?))
  }

  lemma DecidedByPoll(s: Sched)
    requires Undecided(s) && s.plans != [] && (s.place.Asleep? || s.place.Poll? || s.place.Drop?)
    ensures NeverPassed(s, |s.plans|)
  {
    hide IsNext, PlanOk, Before;
  }

  lemma NeverPassedStep(s: Sched, n: nat, e: Event, t: Sched)
    requires Inv(s) && NeverPassed(s, n) && !s.stop && IsUndisturbed(e) && Next(s, e) == Some(t)
    ensures NeverPassed(t, n) && !t.stop
  {
    hide Inv, Planned;
    InvAtPlace(s);
    if e.Go? && s.place.Planning? {
      PlannedGrows(s, s.place.setting);
    }
  }

  lemma {:induction false} StaysUnpassed(s: Sched, events: seq<Event>, t: Sched, n: nat)
    requires Inv(s) && NeverPassed(s, n) && !s.stop && Undisturbed(events) && Exec(s, events) == Some(t)
    ensures !IsPassed(t, n - 1)
    decreases |events|
  {
    hide Inv, NeverPassed, Next;
    if events == [] {
      NeverPassedNow(s, n);
    } else {
      var u := Next(s, events[0]).value;
      NextKeepsInv(s, events[0], u);
      NeverPassedStep(s, n, events[0], u);
      StaysUnpassed(u, events[1..], t, n);
    }
  }

  lemma NeverPassedNow(s: Sched, n: nat)
    requires NeverPassed(s, n)
    ensures !IsPassed(s, n - 1)
  {
  }

  /* ---------- when a slot passed over is lost ---------- */

  // At the last test a wake settles the slot without a run. It is lost for good exactly if it
  // has come; otherwise the thread can plan it again.
  lemma WakeLosesSlotExactly(s: Sched, setting: Setting, t: Sched)
    requires Inv(s) && s.place.Check? && !s.stop && s.plans != []
    requires Parse(setting) == Times(Last(s).times) && Exec(s, [Wake, Go]) == Some(t)
    ensures t.plans == Settle(s, Passed) && t.now == s.now
    ensures (forall events, u, j ::
               Exec(t, events) == Some(u) && |t.plans| <= j < |u.plans| ==> u.plans[j].slot != Slot(s))
       <==> Slot(s) <= s.now
  {
    hide Inv, Exec, Next, Parse, IsNext;
    PassesOver(s, t);
    if Slot(s) <= s.now {
      forall events, u, j | Exec(t, events) == Some(u) && |t.plans| <= j < |u.plans|
          ensures u.plans[j].slot != Slot(s) {
        LaterPlansAreLater(t, events, u, |t.plans|, t.now);
      }
    } else {
      var events, u := PlansAgain(s, setting, t);
      assert Exec(t, events) == Some(u) && |t.plans| <= |t.plans| < |u.plans| && u.plans[|t.plans|].slot == Slot(s);
    }
  }

  lemma PassesOver(s: Sched, t: Sched)
    requires s.place.Check? && s.plans != [] && Exec(s, [Wake, Go]) == Some(t)
    ensures t == s.(wake := true, place := Clearing, plans := Settle(s, Passed)) && !s.halfStopped
  {
    assert [Wake, Go][1..] == [Go];
    assert Next(s, Wake).Some?;
    var v := s.(wake := true);
    ExecTrace([s, v, v.(place := Clearing, plans := Settle(s, Passed))], [Wake, Go]);
  }

  lemma PlansAgain(s: Sched, setting: Setting, t: Sched) returns (events: seq<Event>, u: Sched)
    requires Inv(s) && s.plans != [] && !s.stop && !s.halfStopped && s.now < Slot(s)
    requires Parse(setting) == Times(Last(s).times)
    requires t == s.(wake := true, place := Clearing, plans := Settle(s, Passed))
    ensures Exec(t, events) == Some(u) && |u.plans| == |t.plans| + 1 && u.plans[|t.plans|].slot == Slot(s)
  {
    hide Inv, Exec, Parse, IsNext;
    StillNext(s);
    var v := t.(wake := false, place := Planning(setting));
    var back := [Go, Go, Load(On(setting))];
    BackFromClearing(t, setting);
    u := WithPlan(v, Parse(setting).times, Slot(s));
    PlansNext(v, setting, Slot(s));
    hide Next;
    ExecTrace([v, u], [Go]);
    ExecConcat(t, back, v, [Go]);
    events := back + [Go];
  }

  lemma BackFromClearing(s: Sched, setting: Setting)
    requires s.place == Clearing && !s.stop
    ensures Exec(s, [Go, Go, Load(On(setting))]) == Some(s.(wake := false, place := Planning(setting)))
  {
    var u := s.(wake := false);
    ExecTrace([s, u.(place := Head), u.(place := Loading), u.(place := Planning(setting))],
        [Go, Go, Load(On(setting))]);
  }

  // A slot that has not come is still the next one.
  lemma StillNext(s: Sched)
    requires Inv(s) && s.plans != [] && s.now < Slot(s)
    ensures IsNext(Last(s).times, s.now, Slot(s))
  {
    hide Before;
    assert PlanOk(s, Last(s));
  }

  /* ---------- when a slot can be run twice ---------- */

  // In every history: a run before its slot was planned more than 30 s ahead of it.
  ghost predicate EarlyFromAfar(s: Sched, n: nat) {
    && (forall i :: n <= i < |s.plans| ==> PlannedAfar(s.plans[i]))
    && (HasPlan(s.place) && n < |s.plans| && s.now < Slot(s) ==> MayBeEarly(s))
  }

  predicate PlannedAfar(p: Plan) {
    p.fate.Fired? && p.fate.at < p.slot ==> p.base + 30_000_000 < p.slot
  }

  // Where the thread stands before a slot that is near: not past its wait, unless it was stopped.
  predicate MayBeEarly(s: Sched)
    requires s.plans != []
  {
    || Last(s).base + 30_000_000 < Slot(s)
    || s.place.Inner? || s.place.Clock?
    || (s.place.Asleep? && Slot(s) <= s.place.until)
    || (s.place.Leave? && s.stop)
  }

  lemma AfarStep(s: Sched, n: nat, e: Event, t: Sched)
    requires Inv(s) && EarlyFromAfar(s, n) && n <= |s.plans| && Next(s, e) == Some(t)
    ensures EarlyFromAfar(t, n) && n <= |t.plans|
  {
    hide Inv, EarlyFromAfar, Planned, PlannedAfar, Settle;
    InvAtPlace(s);
    BaseIsPast(s);
    if e.Go? && s.place.Planning? {
      AfarPlanned(s, n, s.place.setting);
    } else if e.Go? && s.place.Check? {
      AfarSettled(s, n, if s.wake then Passed else Fired(s.now, s.place.woken), t);
    } else {
      AfarMoved(s, n, e, t);
    }
  }

  lemma AfarMoved(s: Sched, n: nat, e: Event, t: Sched)
    requires PlaceOk(s) && EarlyFromAfar(s, n) && n <= |s.plans| && Next(s, e) == Some(t)
    requires !(e.Go? && (s.place.Planning? || s.place.Check?)) && (s.plans != [] ==> Last(s).base <= s.now)
    ensures EarlyFromAfar(t, n) && n <= |t.plans|
  {
    hide Planned, PlannedAfar, Settle;
  }

  lemma BaseIsPast(s: Sched)
    requires Inv(s)
    ensures s.plans != [] ==> Last(s).base <= s.now
  {
    hide IsNext, Before;
    assert s.plans != [] ==> PlanOk(s, Last(s));
  }

  lemma AfarPlanned(s: Sched, n: nat, setting: Setting)
    requires EarlyFromAfar(s, n) && n <= |s.plans| && s.place == Planning(setting)
    ensures EarlyFromAfar(Planned(s, setting), n) && n <= |Planned(s, setting).plans|
  {
    hide IsNext, Parse;
  }

  lemma AfarSettled(s: Sched, n: nat, fate: Fate, t: Sched)
    requires EarlyFromAfar(s, n) && n <= |s.plans| && s.plans != [] && s.place.Check?
    requires fate.Fired? ==> fate.at == s.now
    requires t.plans == Settle(s, fate) && !HasPlan(t.place)
    ensures EarlyFromAfar(t, n) && n <= |t.plans|
  {
  }

  lemma {:induction false} AfarHolds(s: Sched, n: nat, events: seq<Event>, t: Sched)
    requires Inv(s) && EarlyFromAfar(s, n) && n <= |s.plans| && Exec(s, events) == Some(t)
    ensures EarlyFromAfar(t, n)
    decreases |events|
  {
    hide Inv, EarlyFromAfar, Next;
    if events != [] {
      var u := Next(s, events[0]).value;
      NextKeepsInv(s, events[0], u);
      AfarStep(s, n, events[0], u);
      AfarHolds(u, n, events[1..], t);
    }
  }

  // Of a history: plans i and j, made since plan n, have both run the slot.
  predicate BothRun(s: Sched, n: nat, i: int, j: int, slot: int) {
    && n <= i < j < |s.plans| && s.plans[i].slot == slot == s.plans[j].slot
    && s.plans[i].fate.Fired? && s.plans[j].fate.Fired?
  }

  ghost predicate LeadsToBoth(s: Sched, events: seq<Event>, i: int, j: int, slot: int) {
    Exec(s, events).Some? && BothRun(Exec(s, events).value, |s.plans|, i, j, slot)
  }

  // A thread about to plan a slot can come to run it twice, whatever happens, exactly if the
  // slot is more than 30 s away.
  lemma RunsTwiceExactly(s: Sched, setting: Setting, slot: int)
    requires Inv(s) && Ready(s, setting) && IsNext(Parse(setting).times, s.now, slot)
    ensures (exists events, i, j :: LeadsToBoth(s, events, i, j, slot)) <==> s.now + 30_000_000 < slot
  {
    hide Inv, Exec, Parse, IsNext;
    var n := |s.plans|;
    if s.now + 30_000_000 < slot {
      var events, t := WakeRunsSlotTwice(s, setting, slot);
      assert LeadsToBoth(s, events, n, n + 1, slot);
    }
    forall events, i, j | LeadsToBoth(s, events, i, j, slot) ensures s.now + 30_000_000 < slot {
      TwiceMeansFar(s, setting, events, Exec(s, events).value, i, j, slot);
    }
  }

  lemma TwiceMeansFar(s: Sched, setting: Setting, events: seq<Event>, t: Sched, i: int, j: int, slot: int)
    requires Inv(s) && s.place == Planning(setting) && Exec(s, events) == Some(t)
    requires BothRun(t, |s.plans|, i, j, slot)
    ensures s.now + 30_000_000 < slot
  {
    hide Inv, Exec, Parse;
    AfarHolds(s, |s.plans|, events, t);
    LaterPlansAreLater(s, events, t, |s.plans|, s.now);
    ExecKeepsInv(s, events, t);
    RunOfLaterPlan(t, i, j);
    assert PlannedAfar(t.plans[i]);
  }

  // A later plan lies after the start of an earlier run.
  lemma RunOfLaterPlan(s: Sched, i: int, j: int)
    requires Inv(s) && 0 <= i < j < |s.plans| && s.plans[i].fate.Fired?
    ensures s.plans[i].fate.at < s.plans[j].slot
  {
    assert PlanOk(s, s.plans[j]) && Before(s.plans[i], s.plans[j]);
  }
}
