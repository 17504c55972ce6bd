/** Safety of the restart supervisor over every run. */
module SupervisorSafety {
  import opened Common
  import opened Supervisor

  // ---- The timer field ---------------------------------------------------------------------

  /** While stopping or disposed the supervisor holds no restart timer. */
  ghost predicate Quiet(s: State) {
    s.stopping || s.disposed ==> s.timer.None?
  }

  lemma StepQuiet(o: Options, s: State, e: Event)
    requires Quiet(s)
    ensures Quiet(Step(o, s, e).state)
  {
  }

  lemma {:induction false} AlwaysQuiet(o: Options, events: seq<Event>)
    ensures Quiet(Run(o, events).state)
  {
    hide Step;
    if events != [] {
      AlwaysQuiet(o, events[..|events| - 1]);
      StepQuiet(o, Run(o, events[..|events| - 1]).state, events[|events| - 1]);
    }
  }

  // ---- The timers that are really pending --------------------------------------------------

  /** The pending timers are the one the field holds, if any. */
  ghost predicate Tidy(s: State) {
    s.host.timers == if s.timer.Some? then {s.timer.value} else {}
  }

  /** Nothing that could schedule a restart is under way while one is pending. */
  ghost predicate Settled(s: State) {
    && (forall t | t in s.host.timers :: t < s.host.nextTimer)
    && (forall c | c in s.host.awaiting || c in s.host.watched || c in s.host.exited || s.child == Some(c) ::
          c < s.host.nextChild)
    && (s.host.timers != {} ==> s.child.None? || s.child.value in s.host.exited)
    && s.host.watched !! s.host.exited
  }

  /** An external start that spawns while a restart is pending: state stays `ready` during a
  backoff, so start() does not refuse. */
  predicate CutsIn(s: State, e: Event) {
    e.Start? && CanSpawn(s) && s.host.timers != {}
  }

  /** No start in the run cut in on a pending restart. */
  ghost predicate NoneCutsIn(o: Options, events: seq<Event>) {
    forall i | 0 <= i < |events| :: !CutsIn(Run(o, events[..i]).state, events[i])
  }

  lemma StopTidy(s: State)
    requires Tidy(s) && Settled(s)
    ensures Tidy(StopFrom(s)) && Settled(StopFrom(s))
  {
    assert StopFrom(s).host.timers == {};
  }

  lemma ExitTidy(o: Options, s: State, child: nat, now: int, bySignal: bool)
    requires Tidy(s) && Settled(s)
    ensures var t := Step(o, s, Exit(child, now, bySignal)).state; Tidy(t) && Settled(t)
  {
    if child !in s.host.exited && child < s.host.nextChild && child in s.host.watched {
      assert s.child == Some(child) ==> s.host.timers == {};
    }
  }

  lemma StepTidy(o: Options, s: State, e: Event)
    requires Tidy(s) && Settled(s) && !CutsIn(s, e)
    ensures Tidy(Step(o, s, e).state) && Settled(Step(o, s, e).state)
  {
    match e
    case Exit(child, now, bySignal) => ExitTidy(o, s, child, now, bySignal);
    case Stop => StopTidy(s);
    case Dispose => StopTidy(s.(disposed := true));
    case _ =>
  }

  /** As long as nobody starts the agent while a restart is pending, the only pending timer is the
  one the supervisor holds; so stop and dispose leave none behind. */
  lemma {:induction false} TimersTidy(o: Options, events: seq<Event>)
    requires NoneCutsIn(o, events)
    ensures var s := Run(o, events).state;
            Tidy(s) && Settled(s) && (s.stopping || s.disposed ==> s.host.timers == {})
  {
    AlwaysQuiet(o, events);
    if events != [] {
      var n := |events| - 1;
      var front := events[..n];
      forall i | 0 <= i < n ensures front[..i] == events[..i] {
      }
      assert NoneCutsIn(o, front);
      TimersTidy(o, front);
      StepTidy(o, Run(o, front).state, events[n]);
    }
  }

  /** Before the event: an exit that will schedule a restart while one is already held. */
  predicate Overlaps(o: Options, s: State, e: Event) {
    && e.Exit? && e.child in s.host.watched && e.child !in s.host.exited && e.child < s.host.nextChild
    && s.child == Some(e.child) && !s.disposed && !s.stopping && s.timer.Some?
    && (if Stable(s, e.now) then 0 else s.crashes) + 1 < o.maxConsecutiveCrashes
  }

  /** A held timer is pending, and every pending timer was set before the next one. */
  ghost predicate Held(s: State) {
    && (s.timer.Some? ==> s.timer.value in s.host.timers)
    && (forall t | t in s.host.timers :: t < s.host.nextTimer)
  }

  lemma ExitHeld(o: Options, s: State, e: Event)
    requires Held(s) && e.Exit?
    ensures var t := Step(o, s, e).state; Held(t) && (Tidy(s) ==> (Tidy(t) <==> !Overlaps(o, s, e)))
  {
    var t := Step(o, s, e).state;
    if t.timer != s.timer || t.host.timers != s.host.timers {
      assert t.timer == Some(s.host.nextTimer) && t.host.timers == s.host.timers + {s.host.nextTimer};
      assert s.host.nextTimer in t.host.timers;
      assert s.timer.Some? ==> s.timer.value in t.host.timers;
    }
  }

  lemma StopHeld(s: State)
    requires Held(s)
    ensures Held(StopFrom(s)) && (StopFrom(s).host.timers == {} <==> Tidy(s)) && (Tidy(s) ==> Tidy(StopFrom(s)))
  {
    if s.timer.Some? {
      assert s.host.timers == StopFrom(s).host.timers + {s.timer.value};
    }
  }

  /** From a tidy state, track of a timer is lost exactly by an overlapping crash. */
  lemma LosesTrackIff(o: Options, s: State, e: Event)
    requires Held(s)
    ensures var t := Step(o, s, e).state; Held(t) && (Tidy(s) ==> (Tidy(t) <==> !Overlaps(o, s, e)))
  {
    match e
    case Exit(_, _, _) => ExitHeld(o, s, e);
    case Stop => StopHeld(s);
    case Dispose => StopHeld(s.(disposed := true));
    case _ =>
  }

  lemma {:induction false} AlwaysHeld(o: Options, events: seq<Event>)
    ensures Held(Run(o, events).state)
  {
    hide Step, Held;
    if events == [] {
      HeldAtFirst(o);
    } else {
      AlwaysHeld(o, events[..|events| - 1]);
      LosesTrackIff(o, Run(o, events[..|events| - 1]).state, events[|events| - 1]);
    }
  }

  lemma HeldAtFirst(o: Options)
    ensures Held(Run(o, []).state) && Tidy(Run(o, []).state)
  {
  }

  /** stop() and dispose() leave no restart behind, after any run, exactly when the supervisor had
  not lost track of one. */
  lemma HaltClearsIff(o: Options, events: seq<Event>)
    ensures Run(o, events + [Stop]).state.host.timers == {} <==> Tidy(Run(o, events).state)
    ensures Run(o, events + [Dispose]).state.host.timers == {} <==> Tidy(Run(o, events).state)
  {
    var s := Run(o, events).state;
    AlwaysHeld(o, events);
    RunSnoc(o, events, Stop);
    RunSnoc(o, events, Dispose);
    hide Run;
    StopHeld(s);
    StopHeld(s.(disposed := true));
  }

  ghost predicate TidySoFar(o: Options, events: seq<Event>, n: nat)
    requires n <= |events|
  {
    Tidy(Run(o, events[..n]).state)
  }

  ghost predicate OverlapsAt(o: Options, events: seq<Event>, i: nat)
    requires i < |events|
  {
    Overlaps(o, Run(o, events[..i]).state, events[i])
  }

  ghost predicate AlwaysTidy(o: Options, events: seq<Event>) {
    forall n: nat | n <= |events| :: TidySoFar(o, events, n)
  }

  ghost predicate NeverOverlaps(o: Options, events: seq<Event>) {
    forall i: nat | i < |events| :: !OverlapsAt(o, events, i)
  }

  lemma AlwaysTidySnoc(o: Options, front: seq<Event>, e: Event)
    ensures AlwaysTidy(o, front + [e]) <==> AlwaysTidy(o, front) && Tidy(Run(o, front + [e]).state)
    ensures AlwaysTidy(o, front) ==> Tidy(Run(o, front).state)
  {
    hide Run, Tidy;
    var events, n := front + [e], |front|;
    forall i: nat | i <= n ensures TidySoFar(o, front, i) <==> TidySoFar(o, events, i) {
      assert front[..i] == events[..i];
    }
    assert front[..n] == front && events[..n + 1] == events;
    assert TidySoFar(o, front, n) <==> Tidy(Run(o, front).state);
    assert TidySoFar(o, events, n + 1) <==> Tidy(Run(o, events).state);
  }

  lemma NeverOverlapsSnoc(o: Options, front: seq<Event>, e: Event)
    ensures NeverOverlaps(o, front + [e]) <==> NeverOverlaps(o, front) && !Overlaps(o, Run(o, front).state, e)
  {
    hide Run, Overlaps;
    var events, n := front + [e], |front|;
    forall i: nat | i < n ensures OverlapsAt(o, front, i) <==> OverlapsAt(o, events, i) {
      assert front[..i] == events[..i];
    }
    assert events[..n] == front;
    assert OverlapsAt(o, events, n) <==> Overlaps(o, Run(o, front).state, e);
  }

  /** Over any run: no timer is ever lost track of, so that stop() and dispose() would have cleared
  everything at any point, if and only if no crash ever overlaps a held restart. */
  lemma {:induction false} NeverLosesTrackIff(o: Options, events: seq<Event>)
    ensures AlwaysTidy(o, events) <==> NeverOverlaps(o, events)
  {
    hide Run, Step, Held, Tidy, Overlaps;
    if events == [] {
      HeldAtFirst(o);
      assert events[..0] == [];
    } else {
      var front, e := events[..|events| - 1], events[|events| - 1];
      assert events == front + [e];
      NeverLosesTrackIff(o, front);
      AlwaysHeld(o, front);
      RunSnoc(o, front, e);
      LosesTrackIff(o, Run(o, front).state, e);
      AlwaysTidySnoc(o, front, e);
      NeverOverlapsSnoc(o, front, e);
    }
  }

  /** One start, handshake and quick crash, from a state that allows a start. */
  lemma CrashCycle(o: Options, events: seq<Event>)
    requires var s := Run(o, events).state;
             && CanSpawn(s) && !s.disposed && s.crashes + 1 < o.maxConsecutiveCrashes
             && s.host.exited + s.host.awaiting + s.host.watched !! {s.host.nextChild}
    ensures var s := Run(o, events).state;
            var c := s.host.nextChild;
            var t := Run(o, events + [Start, Handshake(c, 1), Exit(c, 2, false)]).state;
            && t.phase == Ready && !t.ready && !t.disposed && t.crashes == s.crashes + 1
            && t.timer == Some(s.host.nextTimer) && t.host.timers == s.host.timers + {s.host.nextTimer}
            && t.host.nextTimer == s.host.nextTimer + 1 && t.host.nextChild == c + 1
            && t.host.exited == s.host.exited + {c} && t.host.awaiting == s.host.awaiting
            && t.host.watched == s.host.watched && t.child == Some(c) && t.host.coded == s.host.coded + {c}
  {
    hide Run;
    var c := Run(o, events).state.host.nextChild;
    var e1 := events + [Start];
    var e2 := e1 + [Handshake(c, 1)];
    RunSnoc(o, events, Start);
    RunSnoc(o, e1, Handshake(c, 1));
    RunSnoc(o, e2, Exit(c, 2, false));
    assert e2 + [Exit(c, 2, false)] == events + [Start, Handshake(c, 1), Exit(c, 2, false)];
  }

  /** A run in which stop(), and even dispose(), leaves a restart pending, and the agent is then
  spawned again. */
  lemma RestartAfterDispose(o: Options)
    requires o.maxConsecutiveCrashes > 2
    ensures var events := [Start, Handshake(0, 1), Exit(0, 2, false), Start, Handshake(1, 1), Exit(1, 2, false), Dispose];
            var s := Run(o, events).state;
            && s.disposed && s.stopping && s.timer.None? && s.host.timers == {0}
            && Step(o, s, TimerFires(0)).outs == [Spawned(true)]
  {
    var once := [Start, Handshake(0, 1), Exit(0, 2, false)];
    var twice := once + [Start, Handshake(1, 1), Exit(1, 2, false)];
    assert Run(o, []) == Stepped(Initial(o), []);
    CrashCycle(o, []);
    assert [] + once == once;
    CrashCycle(o, once);
    RunSnoc(o, twice, Dispose);
    hide Run;
    assert {0, 1} - {1} == {0};
    assert twice + [Dispose]
        == [Start, Handshake(0, 1), Exit(0, 2, false), Start, Handshake(1, 1), Exit(1, 2, false), Dispose];
  }

  lemma RunSnoc(o: Options, events: seq<Event>, e: Event)
    ensures var before, last := Run(o, events), Step(o, Run(o, events).state, e);
            Run(o, events + [e]) == Stepped(last.state, before.outs + last.outs)
  {
    assert (events + [e])[..|events|] == events;
  }

  // ---- Backoff -----------------------------------------------------------------------------

  predicate IsCrash(out: Out) {
    out.Restart? || out.Trip?
  }

  /** When the agent last became ready with no crash since, or zero. */
  function ReadySince(outs: seq<Out>): int {
    if outs == [] then 0
    else
      var last := outs[|outs| - 1];
      if last.BecameReady? then last.at
      else if IsCrash(last) then 0
      else ReadySince(outs[..|outs| - 1])
  }

  /** Crashes since the last stable run, read off what was observed. */
  function CrashCount(outs: seq<Out>): nat {
    if outs == [] then 0
    else
      var last := outs[|outs| - 1];
      if !IsCrash(last) then CrashCount(outs[..|outs| - 1])
      else if last.stable then 1
      else CrashCount(outs[..|outs| - 1]) + 1
  }

  /** The base delay doubled k - 1 times, capped. */
  function Capped(o: Options, k: nat): int
    requires k > 0
  {
    Min(o.restartDelay * Pow2(k - 1), o.restartMaxDelay)
  }

  /** The k-th wait: the first one is not capped. */
  function Wait(o: Options, k: nat): int
    requires k > 0
  {
    if k == 1 then o.restartDelay else Capped(o, k)
  }

  /** A crash observed after `before` is stable exactly when the agent had then been ready for 30
  seconds, carries the count of crashes since the last stable run, trips the breaker exactly from
  the configured count on, and otherwise waits: the base delay after a first crash, the capped
  doubling after a later one. The cap is kept by every wait but a first one above it. */
  ghost predicate CrashOk(o: Options, before: seq<Out>, out: Out)
    requires IsCrash(out)
  {
    && (out.stable <==> ReadySince(before) != 0 && out.at - ReadySince(before) >= 30000)
    && out.count == CrashCount(before + [out])
    && (out.Trip? <==> out.count >= o.maxConsecutiveCrashes)
    && (out.Restart? ==>
          && out.count > 0 && out.delay == Wait(o, out.count)
          && (out.delay == Capped(o, out.count) <==> out.count > 1 || o.restartDelay <= o.restartMaxDelay)
          && (out.delay <= o.restartMaxDelay <==> out.count > 1 || o.restartDelay <= o.restartMaxDelay))
  }

  /** Every crash observed is in order. */
  ghost predicate Scheduled(o: Options, outs: seq<Out>) {
    forall i: nat | i < |outs| && IsCrash(outs[i]) :: CrashOk(o, outs[..i], outs[i])
  }

  ghost predicate BackoffKept(o: Options, s: State, outs: seq<Out>) {
    && s.readySince == ReadySince(outs)
    && s.crashes == CrashCount(outs)
    && (s.crashes < o.maxConsecutiveCrashes || s.crashes == 0 ==> s.backoff == Wait(o, s.crashes + 1))
  }

  lemma WaitDoubles(o: Options, k: nat)
    requires k > 0 && 0 <= o.restartDelay && 0 <= o.restartMaxDelay
    ensures Min(Wait(o, k) * 2, o.restartMaxDelay) == Wait(o, k + 1)
  {
    var p := Pow2(k - 1);
    assert Pow2(k) == 2 * p;
    assert o.restartDelay * (2 * p) == 2 * (o.restartDelay * p);
    assert o.restartDelay * p >= 0;
  }

  lemma {:induction false} WaitsFollowSchedule(o: Options, events: seq<Event>)
    requires 0 <= o.restartDelay && 0 <= o.restartMaxDelay
    ensures Scheduled(o, Run(o, events).outs) && BackoffKept(o, Run(o, events).state, Run(o, events).outs)
  {
    if events != [] {
      var front, last := events[..|events| - 1], events[|events| - 1];
      WaitsFollowSchedule(o, front);
      var before := Run(o, front);
      StepSchedule(o, before.state, before.outs, last);
    }
  }

  lemma StepShape(o: Options, s: State, e: Event)
    ensures var t := Step(o, s, e);
            && |t.outs| <= 1
            && (t.outs == [] || !IsCrash(t.outs[0]) ==>
                  && t.state.crashes == s.crashes && t.state.backoff == s.backoff
                  && t.state.readySince == if t.outs != [] && t.outs[0].BecameReady? then t.outs[0].at else s.readySince)
            && (t.outs != [] && IsCrash(t.outs[0]) ==>
                  var out := t.outs[0];
                  && t.state.readySince == 0
                  && (out.stable <==> s.readySince != 0 && out.at - s.readySince >= 30000)
                  && t.state.crashes == out.count == (if out.stable then 0 else s.crashes) + 1
                  && (out.Trip? <==> out.count >= o.maxConsecutiveCrashes)
                  && (out.Restart? ==>
                        && out.delay == (if out.stable then o.restartDelay else s.backoff)
                        && t.state.backoff == Min(out.delay * 2, o.restartMaxDelay)))
  {
  }

  lemma Last(outs: seq<Out>, out: Out)
    ensures CrashCount(outs + [out])
         == if !IsCrash(out) then CrashCount(outs) else if out.stable then 1 else CrashCount(outs) + 1
    ensures ReadySince(outs + [out])
         == if out.BecameReady? then out.at else if IsCrash(out) then 0 else ReadySince(outs)
  {
    assert (outs + [out])[..|outs|] == outs;
  }

  lemma ScheduledSnoc(o: Options, outs: seq<Out>, out: Out)
    requires Scheduled(o, outs) && (IsCrash(out) ==> CrashOk(o, outs, out))
    ensures Scheduled(o, outs + [out])
  {
    hide CrashOk;
    var all := outs + [out];
    forall i: nat | i < |all| && IsCrash(all[i]) ensures CrashOk(o, all[..i], all[i]) {
      assert all[..i] == outs[..i];
      assert i == |outs| ==> all[..i] == outs;
    }
  }

  lemma StepSchedule(o: Options, s: State, outs: seq<Out>, e: Event)
    requires 0 <= o.restartDelay && 0 <= o.restartMaxDelay
    requires Scheduled(o, outs) && BackoffKept(o, s, outs)
    ensures var t := Step(o, s, e); Scheduled(o, outs + t.outs) && BackoffKept(o, t.state, outs + t.outs)
  {
    hide Wait, Capped, Step, Min, Scheduled, CrashCount, ReadySince;
    StepShape(o, s, e);
    WaitOne(o);
    var t := Step(o, s, e);
    if t.outs == [] {
      assert outs + [] == outs;
    } else {
      assert t.outs == [t.outs[0]];
      Last(outs, t.outs[0]);
      if t.outs[0].Restart? {
        WaitDoubles(o, t.outs[0].count);
        WaitCapped(o, t.outs[0].count);
      }
      ScheduledSnoc(o, outs, t.outs[0]);
    }
  }

  lemma WaitOne(o: Options)
    ensures Wait(o, 1) == o.restartDelay
  {
  }

  lemma WaitCapped(o: Options, k: nat)
    requires k > 0
    ensures Wait(o, k) == Capped(o, k) <==> k > 1 || o.restartDelay <= o.restartMaxDelay
    ensures Wait(o, k) <= o.restartMaxDelay <==> k > 1 || o.restartDelay <= o.restartMaxDelay
  {
    assert Pow2(0) == 1;
  }

  // ---- Spawns ------------------------------------------------------------------------------

  function CountOuts(outs: seq<Out>, what: Out -> bool): nat {
    if outs == [] then 0
    else CountOuts(outs[..|outs| - 1], what) + (if what(outs[|outs| - 1]) then 1 else 0)
  }

  const RESTARTS := (out: Out) => out.Restart?
  const TIMED := (out: Out) => out.Spawned? && out.byTimer
  const EXTERNAL := (out: Out) => out.Spawned? && !out.byTimer

  lemma CountSnoc(outs: seq<Out>, out: Out, what: Out -> bool)
    ensures CountOuts(outs + [out], what) == CountOuts(outs, what) + (if what(out) then 1 else 0)
  {
    assert (outs + [out])[..|outs|] == outs;
  }

  /** Every timed spawn uses up a scheduled restart. */
  lemma {:induction false} TimedSpawnsAreScheduled(o: Options, events: seq<Event>)
    ensures var r := Run(o, events);
            && CountOuts(r.outs, TIMED) + |r.state.host.timers| <= CountOuts(r.outs, RESTARTS)
            && forall t | t in r.state.host.timers :: t < r.state.host.nextTimer
  {
    if events != [] {
      var front, last := events[..|events| - 1], events[|events| - 1];
      TimedSpawnsAreScheduled(o, front);
      var before, t := Run(o, front), Step(o, Run(o, front).state, last);
      TimerCount(o, before.state, last);
      if t.outs == [] {
        assert before.outs + [] == before.outs;
      } else {
        assert t.outs == [t.outs[0]];
        CountSnoc(before.outs, t.outs[0], TIMED);
        CountSnoc(before.outs, t.outs[0], RESTARTS);
      }
    }
  }

  ghost predicate TimersBalance(s: State, t: Stepped) {
    && |t.outs| <= 1
    && |t.state.host.timers| <= |s.host.timers| + (if t.outs != [] && t.outs[0].Restart? then 1 else 0)
                                               - (if t.outs == [Spawned(true)] then 1 else 0)
    && forall id | id in t.state.host.timers :: id < t.state.host.nextTimer
  }

  lemma TimerCount(o: Options, s: State, e: Event)
    requires forall t | t in s.host.timers :: t < s.host.nextTimer
    ensures TimersBalance(s, Step(o, s, e))
  {
    match e
    case TimerFires(id) => FireCount(o, s, id);
    case Exit(child, now, bySignal) => ExitCount(o, s, child, now, bySignal);
    case Stop => StopCount(s);
    case Dispose => StopCount(s.(disposed := true));
    case _ =>
  }

  lemma FireCount(o: Options, s: State, id: nat)
    requires forall t | t in s.host.timers :: t < s.host.nextTimer
    ensures TimersBalance(s, Step(o, s, TimerFires(id)))
  {
    if id in s.host.timers {
      assert Step(o, s, TimerFires(id)).state.host.timers == s.host.timers - {id};
    }
  }

  lemma ExitCount(o: Options, s: State, child: nat, now: int, bySignal: bool)
    requires forall t | t in s.host.timers :: t < s.host.nextTimer
    ensures TimersBalance(s, Step(o, s, Exit(child, now, bySignal)))
  {
    var t := Step(o, s, Exit(child, now, bySignal));
    if t.outs != [] && t.outs[0].Restart? {
      assert t.state.host.timers == s.host.timers + {s.host.nextTimer};
    } else {
      assert t.state.host.timers == s.host.timers;
    }
  }

  lemma StopCount(s: State)
    ensures |StopFrom(s).host.timers| <= |s.host.timers|
    ensures StopFrom(s).host.timers <= s.host.timers && StopFrom(s).host.nextTimer == s.host.nextTimer
  {
    if s.timer.Some? && s.timer.value in s.host.timers {
      assert StopFrom(s).host.timers == s.host.timers - {s.timer.value};
    } else {
      assert StopFrom(s).host.timers == s.host.timers;
    }
  }

  // ---- After the breaker, and after a failed start -----------------------------------------

  /** The breaker has tripped on the latest child, and no start, failed start or stop is under way. */
  ghost predicate Broken(s: State) {
    && s.phase == Tripped && s.host.awaiting == {} && s.host.failing == 0 && s.host.stops == 0
    && (s.child.Some? ==> s.child.value in s.host.exited)
  }

  lemma BrokenStays(o: Options, s: State, e: Event)
    requires Broken(s) && !e.Stop? && !e.Dispose?
    ensures Broken(Step(o, s, e).state) && Step(o, s, e).outs == []
  {
  }

  /** A tripped breaker refuses every start, external or timed, until someone stops the supervisor:
  whatever else happens, nothing is spawned and it stays tripped. */
  lemma {:induction false} TrippedRefuses(o: Options, before: seq<Event>, after: seq<Event>)
    requires Broken(Run(o, before).state)
    requires forall e | e in after :: !e.Stop? && !e.Dispose?
    ensures Broken(Run(o, before + after).state) && Run(o, before + after).outs == Run(o, before).outs
  {
    hide Run, Step, Broken;
    if after == [] {
      assert before + after == before;
    } else {
      var front, last := after[..|after| - 1], after[|after| - 1];
      assert last in after && forall e | e in front :: e in after;
      TrippedRefuses(o, before, front);
      BrokenStays(o, Run(o, before + front).state, last);
      RunSnoc(o, before + front, last);
      assert (before + front) + [last] == before + after;
    }
  }

  /** Tripping leaves the breaker broken if nothing else was under way; a stop mends it, as the
  tripping child has ended, and the next start spawns. */
  lemma TripBreaks(o: Options, s: State, child: nat, now: int)
    requires Step(o, s, Exit(child, now, false)).outs != [] && Step(o, s, Exit(child, now, false)).outs[0].Trip?
    requires s.host.awaiting == {} && s.host.failing == 0 && s.host.stops == 0
    ensures var t := Step(o, s, Exit(child, now, false)).state;
            && Broken(t)
            && Step(o, t, Start).outs == []
            && Step(o, Step(o, t, Stop).state, Start).outs == [Spawned(false)]
  {
  }

  /** A start whose handshake fails, once its child is gone, leaves the supervisor stopped, and the
  next start spawns; until then it is refused. */
  lemma FailedStartAllowsAnother(o: Options, s: State, child: nat)
    requires s.phase == Starting && child in s.host.awaiting
    ensures var failed := Step(o, s, HandshakeFails(child)).state;
            var t := Step(o, failed, FailureEnds).state;
            && Step(o, failed, Start).outs == []
            && t.phase == Stopped && t.child != Some(child)
            && Step(o, t, Start).outs == [Spawned(false)]
  {
  }

  /** A stop is not answered with a restart: the child's end, while stopping or after dispose(),
  schedules nothing, and while stopping it leaves the supervisor stopped and ready to start again. */
  lemma StoppingNeverRestarts(o: Options, s: State, e: Event)
    requires e.Exit? && (s.stopping || s.disposed)
    ensures var t := Step(o, s, e);
            && t.outs == [] && t.state.host.timers == s.host.timers && t.state.timer == s.timer
            && (!s.disposed && s.child == Some(e.child) && e.child in s.host.watched && e.child !in s.host.exited
                && e.child < s.host.nextChild ==>
                  && t.state.phase == Stopped && !t.state.ready
                  && Step(o, t.state, Start).outs == [Spawned(false)])
  {
  }

  /** stop() without a running child is over at once; with one it is over when its wait ends. Either
  way the next start spawns. */
  lemma StopAllowsAnother(o: Options, s: State)
    ensures var t := Step(o, s, Stop).state;
            && (s.child.None? || s.child.value in s.host.coded ==>
                  t.phase == Stopped && Step(o, t, Start).outs == [Spawned(false)])
            && (s.child.Some? && s.child.value !in s.host.coded ==>
                  && t.phase == s.phase
                  && Step(o, Step(o, t, StopEnds).state, Start).outs == [Spawned(false)])
  {
  }

  /** One start at a time: a new child is spawned, and until it has crashed every further start is
  refused, before and after its handshake; after the crash, during the backoff, one is not. */
  lemma OneStartAtATime(o: Options, s: State, now: int, later: int)
    requires s.phase == Stopped && !s.disposed && 0 <= s.crashes && s.crashes + 1 < o.maxConsecutiveCrashes
    requires s.host.exited + s.host.awaiting + s.host.watched !! {s.host.nextChild}
    ensures var child := s.host.nextChild;
            var starting := Step(o, s, Start);
            var ready := Step(o, starting.state, Handshake(child, now));
            var crashed := Step(o, ready.state, Exit(child, later, false));
            && starting.outs == [Spawned(false)] && Step(o, starting.state, Start) == Stepped(starting.state, [])
            && ready.outs == [BecameReady(now)] && Step(o, ready.state, Start) == Stepped(ready.state, [])
            && Step(o, crashed.state, Start).outs == [Spawned(false)]
  {
  }

  ghost predicate NoStableRun(outs: seq<Out>) {
    forall i | 0 <= i < |outs| && IsCrash(outs[i]) :: !outs[i].stable
  }

  lemma ScheduledFront(o: Options, outs: seq<Out>)
    requires Scheduled(o, outs) && outs != []
    ensures var front, last := outs[..|outs| - 1], outs[|outs| - 1];
            && Scheduled(o, front)
            && (IsCrash(last) ==> last.count == CrashCount(outs) && (last.Trip? <==> last.count >= o.maxConsecutiveCrashes))
  {
    var front, last := outs[..|outs| - 1], outs[|outs| - 1];
    forall i: nat | i < |front| && IsCrash(front[i]) ensures CrashOk(o, front[..i], front[i]) {
      assert front[..i] == outs[..i];
    }
    assert front + [last] == outs;
  }

  /** Without a stable run, restarts are limited by the breaker. */
  lemma {:induction false} RestartsLimited(o: Options, outs: seq<Out>)
    requires Scheduled(o, outs) && NoStableRun(outs)
    ensures CountOuts(outs, RESTARTS) <= CrashCount(outs)
    ensures o.maxConsecutiveCrashes >= 1 ==> CountOuts(outs, RESTARTS) <= o.maxConsecutiveCrashes - 1
    ensures o.maxConsecutiveCrashes <= 1 ==> CountOuts(outs, RESTARTS) == 0
  {
    if outs != [] {
      var front, last := outs[..|outs| - 1], outs[|outs| - 1];
      ScheduledFront(o, outs);
      RestartsLimited(o, front);
    }
  }

  lemma {:induction false} SpawnsSplit(outs: seq<Out>)
    ensures CountOuts(outs, (out: Out) => out.Spawned?) == CountOuts(outs, TIMED) + CountOuts(outs, EXTERNAL)
  {
    if outs != [] {
      SpawnsSplit(outs[..|outs| - 1]);
    }
  }

  /** Circuit breaker: without a stable run there is at most one spawn per external start, plus
  one less than the configured number of crashes. With a single external start that makes at most
  `maxConsecutiveCrashes` spawns. */
  lemma SpawnsLimited(o: Options, events: seq<Event>)
    requires 0 <= o.restartDelay && 0 <= o.restartMaxDelay
    requires NoStableRun(Run(o, events).outs)
    ensures CountOuts(Run(o, events).outs, (out: Out) => out.Spawned?)
         <= CountOuts(Run(o, events).outs, EXTERNAL)
            + (if o.maxConsecutiveCrashes >= 1 then o.maxConsecutiveCrashes - 1 else 0)
  {
    hide Run, CountOuts, NoStableRun, Scheduled;
    var outs := Run(o, events).outs;
    WaitsFollowSchedule(o, events);
    TimedSpawnsAreScheduled(o, events);
    RestartsLimited(o, outs);
    SpawnsSplit(outs);
  }
}
