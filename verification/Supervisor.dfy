/** The restart supervisor of the agent process, as steps of one state machine.

The host's side is part of the state: timers set and not yet fired, starts that wait for their
handshake, children whose exit is listened to, children that have exited (and those of them with
an exit code, which a child ended by a signal has not), stops that wait for a child to end. An
event the state does not allow changes nothing, so every list of events is a run. Whether a wait
ever ends is not modelled. */
module Supervisor {
  import opened Common

  const STABLE_UPTIME_MS := 30000

  datatype Phase = Starting | Ready | Stopped | Tripped

  datatype Options = Options(restartDelay: int, restartMaxDelay: int, maxConsecutiveCrashes: int)

  datatype Host = Host(
    timers: set<nat>, nextTimer: nat, nextChild: nat,
    awaiting: set<nat>, watched: set<nat>, exited: set<nat>, coded: set<nat>, failing: nat, stops: nat)

  datatype State = State(
    phase: Phase, child: Option<nat>, ready: bool, crashes: int, backoff: int, readySince: int,
    timer: Option<nat>, stopping: bool, disposed: bool, host: Host)

  datatype Event =
    | Start
    | TimerFires(timer: nat)
    | Handshake(child: nat, now: int)
    | HandshakeFails(child: nat)
    | FailureEnds
    | Exit(child: nat, now: int, bySignal: bool)
    | Stop
    | StopEnds
    | Dispose

  /** What an observer sees: spawned children, completed handshakes, and unexpected exits with what
  follows them. */
  datatype Out =
    | Spawned(byTimer: bool)
    | BecameReady(at: int)
    | Restart(at: int, stable: bool, count: int, delay: int)
    | Trip(at: int, stable: bool, count: int)

  datatype Stepped = Stepped(state: State, outs: seq<Out>)

  function Initial(o: Options): State {
    State(Stopped, None, false, 0, o.restartDelay, 0, None, false, false,
          Host({}, 0, 0, {}, {}, {}, {}, 0, 0))
  }

  predicate CanSpawn(s: State) {
    !(s.phase == Ready && s.ready) && s.phase != Starting && s.phase != Tripped
  }

  function StartFrom(s: State, byTimer: bool): Stepped {
    if !CanSpawn(s) then Stepped(s, [])
    else
      var id := s.host.nextChild;
      Stepped(s.(stopping := false, phase := Starting, child := Some(id),
                 host := s.host.(nextChild := id + 1, awaiting := s.host.awaiting + {id})),
              [Spawned(byTimer)])
  }

  predicate Stable(s: State, now: int) {
    s.readySince != 0 && now - s.readySince >= STABLE_UPTIME_MS
  }

  /** onExit, for the listener of `child`. */
  function Exited(o: Options, s: State, child: nat, now: int): Stepped {
    if s.child != Some(child) || s.disposed then Stepped(s, [])
    else if s.stopping then Stepped(s.(ready := false, phase := Stopped), [])
    else
      var stable := Stable(s, now);
      var count := (if stable then 0 else s.crashes) + 1;
      var backoff := if stable then o.restartDelay else s.backoff;
      var t := s.(ready := false, readySince := 0, crashes := count, backoff := backoff);
      if count >= o.maxConsecutiveCrashes then Stepped(t.(phase := Tripped), [Trip(now, stable, count)])
      else
        var id := s.host.nextTimer;
        Stepped(t.(backoff := Min(backoff * 2, o.restartMaxDelay), timer := Some(id),
                   host := s.host.(nextTimer := id + 1, timers := s.host.timers + {id})),
                [Restart(now, stable, count, backoff)])
  }

  function StopFrom(s: State): State {
    var timers := if s.timer.Some? then s.host.timers - {s.timer.value} else s.host.timers;
    var t := s.(stopping := true, timer := None, host := s.host.(timers := timers));
    if s.child.None? || s.child.value in s.host.coded then t.(phase := Stopped)
    else t.(host := t.host.(stops := t.host.stops + 1))
  }

  function Step(o: Options, s: State, e: Event): Stepped {
    match e
    case Start => StartFrom(s, false)
    case TimerFires(id) =>
      if id !in s.host.timers then Stepped(s, [])
      else StartFrom(s.(timer := None, host := s.host.(timers := s.host.timers - {id})), true)
    case Handshake(child, now) =>
      if child !in s.host.awaiting || child in s.host.exited then Stepped(s, [])
      else Stepped(s.(ready := true, phase := Ready, readySince := now,
                      host := s.host.(awaiting := s.host.awaiting - {child}, watched := s.host.watched + {child})),
                   [BecameReady(now)])
    case HandshakeFails(child) =>
      if child !in s.host.awaiting then Stepped(s, [])
      else Stepped(s.(child := if s.child == Some(child) then None else s.child,
                      host := s.host.(awaiting := s.host.awaiting - {child}, failing := s.host.failing + 1)), [])
    case FailureEnds =>
      if s.host.failing == 0 then Stepped(s, [])
      else Stepped(s.(phase := Stopped, host := s.host.(failing := s.host.failing - 1)), [])
    case Exit(child, now, bySignal) =>
      if child in s.host.exited || child >= s.host.nextChild then Stepped(s, [])
      else
        var t := s.(host := s.host.(exited := s.host.exited + {child}, watched := s.host.watched - {child},
                                  coded := if bySignal then s.host.coded else s.host.coded + {child}));
        if child in s.host.watched then Exited(o, t, child, now) else Stepped(t, [])
    case Stop => Stepped(StopFrom(s), [])
    case StopEnds =>
      if s.host.stops == 0 then Stepped(s, [])
      else Stepped(s.(phase := Stopped, host := s.host.(stops := s.host.stops - 1)), [])
    case Dispose => Stepped(StopFrom(s.(disposed := true)), [])
  }

  function Run(o: Options, events: seq<Event>): Stepped {
    if events == [] then Stepped(Initial(o), [])
    else
      var before := Run(o, events[..|events| - 1]);
      var last := Step(o, before.state, events[|events| - 1]);
      Stepped(last.state, before.outs + last.outs)
  }

  // ---- The object --------------------------------------------------------------------------

  class AgentProcess {
    const options: Options
    var child: Option<nat>
    var phase: Phase
    var consecutiveCrashes: int
    var restartTimer: Option<nat>
    var stopping: bool
    var disposed: bool
    var backoffMs: int
    var readySinceMs: int
    var ready: bool
    var host: Host

    constructor (options: Options)
      ensures this.options == options && Model() == Initial(options)
    {
      this.options := options;
      child, phase, ready := None, Stopped, false;
      consecutiveCrashes, restartTimer := 0, None;
      stopping, disposed := false, false;
      backoffMs, readySinceMs := options.restartDelay, 0;
      host := Host({}, 0, 0, {}, {}, {}, {}, 0, 0);
    }

    function Model(): State
      reads this
    {
      State(phase, child, ready, consecutiveCrashes, backoffMs, readySinceMs, restartTimer, stopping, disposed, host)
    }

    /** start() up to its first wait. */
    method Begin(byTimer: bool) returns (outs: seq<Out>)
      modifies this
      ensures Stepped(Model(), outs) == StartFrom(old(Model()), byTimer)
    {
      if phase == Ready && ready {
        return [];
      }
      if phase == Starting || phase == Tripped {
        return [];
      }
      stopping := false;
      phase := Starting;
      child := Some(host.nextChild);
      host := host.(nextChild := host.nextChild + 1, awaiting := host.awaiting + {host.nextChild});
      return [Spawned(byTimer)];
    }

    method OnExit(exiting: nat, now: int) returns (outs: seq<Out>)
      modifies this
      ensures Stepped(Model(), outs) == Exited(options, old(Model()), exiting, now)
    {
      if child != Some(exiting) || disposed {
        return [];
      }
      ready := false;
      if stopping {
        phase := Stopped;
        return [];
      }
      var stable := readySinceMs != 0 && now - readySinceMs >= STABLE_UPTIME_MS;
      if stable {
        consecutiveCrashes := 0;
        backoffMs := options.restartDelay;
      }
      readySinceMs := 0;
      consecutiveCrashes := consecutiveCrashes + 1;
      if consecutiveCrashes >= options.maxConsecutiveCrashes {
        phase := Tripped;
        return [Trip(now, stable, consecutiveCrashes)];
      }
      var delay := backoffMs;
      backoffMs := Min(backoffMs * 2, options.restartMaxDelay);
      restartTimer := Some(host.nextTimer);
      host := host.(nextTimer := host.nextTimer + 1, timers := host.timers + {host.nextTimer});
      return [Restart(now, stable, consecutiveCrashes, delay)];
    }

    method HaltNow()
      modifies this
      ensures Model() == StopFrom(old(Model()))
    {
      stopping := true;
      if restartTimer.Some? {
        host := host.(timers := host.timers - {restartTimer.value});
        restartTimer := None;
      }
      if child.None? || child.value in host.coded {
        phase := Stopped;
        return;
      }
      host := host.(stops := host.stops + 1);
    }

    /** The object's part in each event. */
    method On(e: Event) returns (outs: seq<Out>)
      modifies this
      ensures Stepped(Model(), outs) == Step(options, old(Model()), e)
    {
      outs := [];
      match e
      case Start =>
        outs := Begin(false);
      case TimerFires(id) =>
        if id in host.timers {
          host := host.(timers := host.timers - {id});
          restartTimer := None;
          outs := Begin(true);
        }
      case Handshake(c, now) =>
        if c in host.awaiting && c !in host.exited {
          ready := true;
          phase := Ready;
          readySinceMs := now;
          host := host.(awaiting := host.awaiting - {c}, watched := host.watched + {c});
          outs := [BecameReady(now)];
        }
      case HandshakeFails(c) =>
        if c in host.awaiting {
          if child == Some(c) {
            child := None;
          }
          host := host.(awaiting := host.awaiting - {c}, failing := host.failing + 1);
        }
      case FailureEnds =>
        if host.failing > 0 {
          phase := Stopped;
          host := host.(failing := host.failing - 1);
        }
      case Exit(c, now, bySignal) =>
        if c !in host.exited && c < host.nextChild {
          var listened := c in host.watched;
          host := host.(exited := host.exited + {c}, watched := host.watched - {c},
                        coded := if bySignal then host.coded else host.coded + {c});
          if listened {
            outs := OnExit(c, now);
          }
        }
      case Stop =>
        HaltNow();
      case StopEnds =>
        if host.stops > 0 {
          phase := Stopped;
          host := host.(stops := host.stops - 1);
        }
      case Dispose =>
        disposed := true;
        HaltNow();
    }
  }
}
