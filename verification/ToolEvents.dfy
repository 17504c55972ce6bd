/** Exactly which events a run of the parser gives, read off the requests alone: the answers to the
requests in order, and tool starts where they are first due. */
module ToolEvents {
  import opened ChatParser
  import opened ToolTrace

  // ---- Everything but the starts -----------------------------------------------------------

  /** The first request that carries a response id has been made. */
  predicate Greeted(ops: seq<Op>) {
    exists i | 0 <= i < |ops| :: ops[i].Hello? && ops[i].responseID != ""
  }

  /** What a request is answered with, besides tool starts: the first response id starts the stream;
  arguments are passed on with the id and name their tool has by then; the rest is passed on. */
  function Answer(before: seq<Op>, op: Op): seq<Event> {
    match op
    case Hello(id, model) => if id != "" && !Greeted(before) then [Start(id, model)] else []
    case Emit(event) => [event]
    case Call(key, _, _, arguments) =>
      if arguments == "" then []
      else [ToolDelta(key, IdOf(before + [op], key), NameOf(before + [op], key), arguments)]
    case Close(stop) => [Finish(stop)]
  }

  function Answers(ops: seq<Op>): seq<Event> {
    if ops == [] then []
    else Answers(ops[..|ops| - 1]) + Answer(ops[..|ops| - 1], ops[|ops| - 1])
  }

  function WithoutStarts(events: seq<Event>): seq<Event> {
    if events == [] then []
    else WithoutStarts(events[..|events| - 1]) + (if events[|events| - 1].ToolStart? then [] else [events[|events| - 1]])
  }

  lemma {:induction false} WithoutAppend(a: seq<Event>, b: seq<Event>)
    ensures WithoutStarts(a + b) == WithoutStarts(a) + WithoutStarts(b)
  {
    if b == [] {
      assert a + b == a;
    } else {
      WithoutAppend(a, b[..|b| - 1]);
      assert (a + b)[..|a + b| - 1] == a + b[..|b| - 1];
    }
  }

  lemma {:induction false} OnlyStarts(events: seq<Event>)
    requires forall e | e in events :: e.ToolStart?
    ensures WithoutStarts(events) == []
  {
    if events != [] {
      OnlyStarts(events[..|events| - 1]);
      assert events[|events| - 1] in events;
    }
  }

  lemma OneWithout(e: Event)
    ensures WithoutStarts([e]) == if e.ToolStart? then [] else [e]
  {
    assert [e][..0] == [];
  }

  /** The starts a finish or a call sets off: of tools not yet started, with the id and name they
  have by then. */
  ghost predicate StartsFrom(s: State, events: seq<Event>, keys: set<string>) {
    forall e | e in events ::
      && e.ToolStart? && e.key in keys && !Flag(s, e.key)
      && e.id == Lookup(s.toolIDs, e.key) && e.name == Lookup(s.toolNames, e.key) != ""
  }

  lemma {:induction false} FinishStarts(s: State, keys: seq<string>)
    ensures var t := StartTools(s, keys);
            && StartsFrom(s, t.events, set k | k in keys)
            && t.state == s.(tools := t.state.tools)
            && forall k | Flag(s, k) :: Flag(t.state, k)
  {
    hide Lookup;
    if keys != [] {
      var front, last := keys[..|keys| - 1], keys[|keys| - 1];
      FinishStarts(s, front);
      assert keys == front + [last];
    }
  }

  lemma StepAnswers(s: State, op: Op)
    ensures var t := Step(s, op);
            && WithoutStarts(t.events)
               == (match op
                   case Hello(id, model) => if id != "" && !s.started then [Start(id, model)] else []
                   case Emit(event) => if event.ToolStart? then [] else [event]
                   case Call(key, _, _, arguments) =>
                     if arguments == "" then []
                     else [ToolDelta(key, Lookup(t.state.toolIDs, key), Lookup(t.state.toolNames, key), arguments)]
                   case Close(stop) => [Finish(stop)])
            && (t.state.started <==> s.started || (op.Hello? && op.responseID != ""))
  {
    hide WithoutStarts, Lookup, MergeToolName;
    OnlyStarts([]);
    match op
    case Hello(id, model) => OneWithout(Start(id, model));
    case Emit(event) => OneWithout(event);
    case Call(key, id, name, arguments) =>
      var seen := See(s, key, id, name);
      var first := StartTool(seen, key);
      var delta := ToolDelta(key, Lookup(seen.toolIDs, key), Lookup(seen.toolNames, key), arguments);
      OneWithout(delta);
      OnlyStarts(first.events);
      WithoutAppend(first.events, [delta]);
    case Close(stop) =>
      FinishStarts(s, s.toolOrder);
      OneWithout(Finish(stop));
      OnlyStarts(StartTools(s, s.toolOrder).events);
      WithoutAppend(StartTools(s, s.toolOrder).events, [Finish(stop)]);
  }

  /** Leaving out tool starts, the events of a run are the answers to its requests: nothing is lost,
  added, changed or reordered. */
  lemma {:induction false} EventsAreAnswers(ops: seq<Op>)
    requires PlainEmits(ops)
    ensures WithoutStarts(Run(INITIAL, ops).events) == Answers(ops)
    ensures Run(INITIAL, ops).state.started <==> Greeted(ops)
  {
    hide Step, WithoutStarts, IdOf, NameOf;
    if ops == [] {
      OnlyStarts([]);
    } else {
      var front, last := ops[..|ops| - 1], ops[|ops| - 1];
      assert ops == front + [last];
      EventsAreAnswers(front);
      StepAnswers(Run(INITIAL, front).state, last);
      WithoutAppend(Run(INITIAL, front).events, Step(Run(INITIAL, front).state, last).events);
      GreetedSnoc(front, last);
      assert last in ops;
      if last.Call? {
        RunHistory(ops, last.key);
      }
    }
  }

  lemma GreetedSnoc(ops: seq<Op>, op: Op)
    ensures Greeted(ops + [op]) <==> Greeted(ops) || (op.Hello? && op.responseID != "")
  {
    var all := ops + [op];
    assert forall i | 0 <= i < |ops| :: all[i] == ops[i];
    assert all[|ops|] == op;
  }

  // ---- The starts --------------------------------------------------------------------------

  /** The event starts its tool where that is first due, with the id and name of that moment. */
  ghost predicate StartsWhenDue(ops: seq<Op>, e: Event, i: nat)
    requires i < |ops|
  {
    && e.ToolStart? && DueAt(ops, e.key, i) && !Due(ops[..i], e.key)
    && e.id == IdOf(ops[..i + 1], e.key) && e.name == NameOf(ops[..i + 1], e.key)
  }

  lemma StepStarts(s: State, op: Op)
    ensures op.Emit? ==> Step(s, op).events == [op.event]
    ensures var t := Step(s, op);
            forall e | e in t.events && e.ToolStart? && !op.Emit? ::
              && (op.Close? || (op.Call? && op.key == e.key && op.arguments != "")) && !Flag(s, e.key)
              && e.id == Lookup(t.state.toolIDs, e.key) && e.name == Lookup(t.state.toolNames, e.key) != ""
  {
    hide MergeToolName;
    if op.Close? {
      FinishStarts(s, s.toolOrder);
      hide StartTools;
    }
  }

  /** Every tool start of a run comes from the request that first makes it due. */
  lemma {:induction false} StartsComeWhenDue(ops: seq<Op>, e: Event)
    requires PlainEmits(ops) && e.ToolStart? && e in Run(INITIAL, ops).events
    ensures exists i: nat | i < |ops| :: StartsWhenDue(ops, e, i)
  {
    hide Step, IdOf, NameOf, Due, DueAt, Good, Started, Flag;
    var n := |ops| - 1;
    var front, last := ops[..n], ops[n];
    if e in Run(INITIAL, front).events {
      StartsComeWhenDue(front, e);
      var i: nat :| i < |front| && StartsWhenDue(front, e, i);
      SamePrefix(ops, front, e, i);
    } else {
      assert last in ops;
      StepStarts(Run(INITIAL, front).state, last);
      RunHistory(ops, e.key);
      RunTrace(front);
      StartedIffDue(front, e.key);
      FlagIsStarted(Run(INITIAL, front).state, Run(INITIAL, front).events, e.key);
      assert ops[..n + 1] == ops;
      LastIsDue(ops, e);
    }
  }

  lemma FlagIsStarted(s: State, events: seq<Event>, key: string)
    requires Good(s, events)
    ensures Flag(s, key) <==> Started(events, key)
  {
  }

  lemma SamePrefix(ops: seq<Op>, front: seq<Op>, e: Event, i: nat)
    requires front <= ops && i < |front| && StartsWhenDue(front, e, i)
    ensures StartsWhenDue(ops, e, i)
  {
    hide Due, IdOf, NameOf;
    assert ops[..i + 1] == front[..i + 1] && ops[..i] == front[..i];
  }

  lemma LastIsDue(ops: seq<Op>, e: Event)
    requires ops != [] && e.ToolStart? && !Due(ops[..|ops| - 1], e.key)
    requires var last := ops[|ops| - 1]; last.Close? || (last.Call? && last.key == e.key && last.arguments != "")
    requires e.id == IdOf(ops, e.key) && e.name == NameOf(ops, e.key) != ""
    ensures StartsWhenDue(ops, e, |ops| - 1)
  {
    hide Due, IdOf, NameOf;
    assert ops[..|ops| - 1 + 1] == ops;
  }
}
