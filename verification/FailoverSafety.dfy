/** What the failover loop guarantees for every world it runs in. */
module FailoverSafety {
  import opened Pool
  import opened Failover

  function TriedNodes(events: seq<Event>): seq<nat> {
    if events == [] then []
    else (if events[0].Tried? then [events[0].node] else []) + TriedNodes(events[1..])
  }

  lemma {:induction false} TriedAppend(x: seq<Event>, y: seq<Event>)
    ensures TriedNodes(x + y) == TriedNodes(x) + TriedNodes(y)
  {
    hide TriedNodes;
    if x == [] {
      assert x + y == y;
      NothingTried();
    } else {
      var first, tail := x[0], x[1..];
      TriedAppend(tail, y);
      TriedFirst(first, tail);
      TriedFirst(first, tail + y);
      assert x == [first] + tail && x + y == [first] + (tail + y);
    }
  }

  lemma NothingTried()
    ensures TriedNodes([]) == []
  {
  }

  lemma TriedFirst(e: Event, more: seq<Event>)
    ensures TriedNodes([e] + more) == (if e.Tried? then [e.node] else []) + TriedNodes(more)
  {
    assert ([e] + more)[1..] == more;
  }

  /** The nodes are those at `offsets`, counted from the cursor's start in rotation order. */
  ghost predicate InRotation(nodes: seq<nat>, offsets: seq<nat>, start: nat, from: nat, n: nat) {
    && |offsets| == |nodes|
    && (forall i | 0 <= i < |offsets| :: from <= offsets[i] < n && nodes[i] == Turn(start, offsets[i], n))
    && (forall i, j | 0 <= i < j < |offsets| :: offsets[i] < offsets[j])
  }

  /** A node passed over was unusable when one of the rounds looked at it. */
  ghost predicate Unusable(w: World, start: nat, k: nat, n: nat, a: nat, rounds: nat)
    requires n > 0
  {
    exists i | a <= i <= a + rounds :: !Eligible(w(i).node(Turn(start, k, n)), w(i).now)
  }

  /** Did the loop end by running out of nodes? */
  predicate Exhausted(w: World, a: nat, tries: nat) {
    tries == 0 || (w(a + tries - 1).exchange.Sent? && !Success(w(a + tries - 1).exchange.outcome))
  }

  lemma RoundTries(v: View, cooldown: int, n: nat, start: nat, offset: nat, a: nat, held: Reply)
    ensures var k, r := FirstOpen(v, start, offset, n), Attempt(v, cooldown, n, start, offset, a, held);
            TriedNodes(r.events) == if k >= n then [] else [Turn(start, k, n)]
  {
    var k := FirstOpen(v, start, offset, n);
    if k < n {
      hide FirstOpen, Settle, Turn, Eligible, TriedNodes;
      var node := Turn(start, k, n);
      HeadTries(node, held);
      if v.exchange.Sent? {
        var outcome := v.exchange.outcome;
        var state := Settle(v, outcome, cooldown);
        BodyTries(a, outcome, node, state);
        TriedAppend(Head(node, held), Body(a, outcome, node, state));
      }
    } else {
      assert TriedNodes([]) == [];
    }
  }

  lemma HeadTries(node: nat, held: Reply)
    ensures TriedNodes(Head(node, held)) == [node]
  {
    TriedAppend([Tried(node)], if held.Response? then [Drained(held.attempt)] else []);
  }

  lemma BodyTries(a: nat, outcome: Outcome, node: nat, state: NodeState)
    ensures TriedNodes(Body(a, outcome, node, state)) == []
  {
    TriedAppend(if outcome.Responded? then [Opened(a)] else [], [Settled(node, state)]);
  }

  lemma AttemptShape(v: View, cooldown: int, n: nat, start: nat, offset: nat, a: nat, held: Reply)
    ensures var k, r := FirstOpen(v, start, offset, n), Attempt(v, cooldown, n, start, offset, a, held);
            if k >= n then r == Round([], k, Stop(held))
            else
              && r.offset == k + 1
              && (r.verdict.GoOn? <==> v.exchange.Sent? && !Success(v.exchange.outcome))
              && (r.verdict == match v.exchange
                               case Unbuildable => Stop(Error)
                               case Sent(o) =>
                                 if Success(o) then Stop(Response(a))
                                 else GoOn(if o.Responded? then Response(a) else Error))
  {
  }

  /** How far from the cursor's start each try was. */
  ghost function Offsets(w: World, cooldown: int, n: nat, start: nat, offset: nat, a: nat, held: Reply): seq<nat>
    decreases n - offset
  {
    var k, r := FirstOpen(w(a), start, offset, n), Attempt(w(a), cooldown, n, start, offset, a, held);
    (if k >= n then [] else [k])
    + (if r.verdict.Stop? then [] else Offsets(w, cooldown, n, start, r.offset, a + 1, r.verdict.held))
  }

  /** Nodes are tried in rotation order from the cursor's start, each offset at most once. */
  lemma {:induction false} TriesRotate(w: World, cooldown: int, n: nat, start: nat, offset: nat, a: nat, held: Reply)
    requires offset <= n
    ensures InRotation(TriedNodes(Loop(w, cooldown, n, start, offset, a, held).events),
                       Offsets(w, cooldown, n, start, offset, a, held), start, offset, n)
    decreases n - offset
  {
    hide Attempt, Eligible, Turn, FirstOpen, TriedNodes;
    var r := Attempt(w(a), cooldown, n, start, offset, a, held);
    RoundTries(w(a), cooldown, n, start, offset, a, held);
    AttemptShape(w(a), cooldown, n, start, offset, a, held);
    if r.verdict.GoOn? {
      TriesRotate(w, cooldown, n, start, r.offset, a + 1, r.verdict.held);
      TriedAppend(r.events, Loop(w, cooldown, n, start, r.offset, a + 1, r.verdict.held).events);
    }
  }

  /** When the loop runs out of nodes, every node it did not try was unusable when passed. */
  lemma {:induction false} SkipsOnlyUnusable(w: World, cooldown: int, n: nat, start: nat, offset: nat, a: nat, held: Reply, k: nat)
    requires offset <= k < n
    requires k !in Offsets(w, cooldown, n, start, offset, a, held)
    requires Exhausted(w, a, |Offsets(w, cooldown, n, start, offset, a, held)|)
    ensures Unusable(w, start, k, n, a, |Offsets(w, cooldown, n, start, offset, a, held)|)
    decreases n - offset
  {
    hide Attempt, Eligible, Turn, FirstOpen;
    var first, r := FirstOpen(w(a), start, offset, n), Attempt(w(a), cooldown, n, start, offset, a, held);
    AttemptShape(w(a), cooldown, n, start, offset, a, held);
    if k < first {
      assert !Eligible(w(a).node(Turn(start, k, n)), w(a).now);
    } else {
      var more := Offsets(w, cooldown, n, start, r.offset, a + 1, r.verdict.held);
      assert Offsets(w, cooldown, n, start, offset, a, held) == [first] + more;
      assert ([first] + more)[0] == first && ([first] + more)[1..] == more;
      SkipsOnlyUnusable(w, cooldown, n, start, r.offset, a + 1, r.verdict.held, k);
    }
  }

  /** No node is tried twice. */
  lemma TriedNodesDiffer(w: World, cooldown: int, n: nat, start: nat, i: nat, j: nat)
    requires i < j < |TriedNodes(Loop(w, cooldown, n, start, 0, 0, Error).events)|
    ensures var tried := TriedNodes(Loop(w, cooldown, n, start, 0, 0, Error).events); tried[i] != tried[j]
  {
    hide Loop, TriedNodes, Turn;
    var offsets := Offsets(w, cooldown, n, start, 0, 0, Error);
    TriesRotate(w, cooldown, n, start, 0, 0, Error);
    TurnsDiffer(start, offsets[i], offsets[j], n);
  }

  /** The loop stops at the first success or unbuildable request and at nothing else, and its
  answer is the last attempt's: its response if it got one, an error if it did not. */
  lemma {:induction false} StopsAtFirstSuccess(w: World, cooldown: int, n: nat, start: nat, offset: nat, a: nat, held: Reply)
    requires offset <= n
    ensures var loop := Loop(w, cooldown, n, start, offset, a, held);
            var m := |TriedNodes(loop.events)|;
            && (forall i | a <= i < a + m - 1 :: w(i).exchange.Sent? && !Success(w(i).exchange.outcome))
            && loop.reply == if m == 0 then held
                             else if w(a + m - 1).exchange.Sent? && w(a + m - 1).exchange.outcome.Responded?
                             then Response(a + m - 1) else Error
    decreases n - offset
  {
    hide Attempt, FirstOpen, Success;
    var r := Attempt(w(a), cooldown, n, start, offset, a, held);
    RoundTries(w(a), cooldown, n, start, offset, a, held);
    AttemptShape(w(a), cooldown, n, start, offset, a, held);
    SuccessResponds(w(a).exchange);
    if r.verdict.GoOn? {
      StopsAtFirstSuccess(w, cooldown, n, start, r.offset, a + 1, r.verdict.held);
      TriedAppend(r.events, Loop(w, cooldown, n, start, r.offset, a + 1, r.verdict.held).events);
    }
  }

  lemma SuccessResponds(e: Exchange)
    ensures e.Sent? && Success(e.outcome) ==> e.outcome.Responded?
  {
  }

  // ---- The same, by status -----------------------------------------------------------------

  /** An answer the caller gets at once: any status from 200 to 299. */
  predicate Answered(e: Exchange) {
    e.Sent? && e.outcome.Responded? && e.outcome.status / 100 == 2
  }

  lemma SuccessIs2xx(o: Outcome)
    ensures Success(o) <==> o.Responded? && o.status / 100 == 2
  {
  }

  /** By status: every attempt but the last was sent and not answered with 200 to 299; if the last
  was not either, and could be built, each node without an attempt was down or cooling when passed. */
  lemma StopsByStatus(w: World, cooldown: int, n: nat, start: nat)
    ensures var loop := Loop(w, cooldown, n, start, 0, 0, Error);
            var m := |TriedNodes(loop.events)|;
            && (forall i | 0 <= i < m - 1 :: w(i).exchange.Sent? && !Answered(w(i).exchange))
            && (m == 0 || (w(m - 1).exchange.Sent? && !Answered(w(m - 1).exchange)) ==>
                  forall node | 0 <= node < n && node !in TriedNodes(loop.events) ::
                    exists i | 0 <= i <= m :: !w(i).node(node).healthy || w(i).node(node).cooldownUntil > w(i).now)
            && (m > 0 && Answered(w(m - 1).exchange) ==> loop.reply == Response(m - 1))
  {
    hide Loop, TriedNodes, Success, Turn;
    var tried := TriedNodes(Loop(w, cooldown, n, start, 0, 0, Error).events);
    var m := |tried|;
    StopsAtFirstSuccess(w, cooldown, n, start, 0, 0, Error);
    forall o {
      SuccessIs2xx(o);
    }
    if m == 0 || (w(m - 1).exchange.Sent? && !Answered(w(m - 1).exchange)) {
      forall node | 0 <= node < n && node !in tried
        ensures exists i | 0 <= i <= m :: !w(i).node(node).healthy || w(i).node(node).cooldownUntil > w(i).now
      {
        UntriedWasDown(w, cooldown, n, start, node);
      }
    }
  }

  lemma UntriedWasDown(w: World, cooldown: int, n: nat, start: nat, node: nat)
    requires node < n && node !in TriedNodes(Loop(w, cooldown, n, start, 0, 0, Error).events)
    requires Exhausted(w, 0, |TriedNodes(Loop(w, cooldown, n, start, 0, 0, Error).events)|)
    ensures exists i | 0 <= i <= |TriedNodes(Loop(w, cooldown, n, start, 0, 0, Error).events)| ::
              !w(i).node(node).healthy || w(i).node(node).cooldownUntil > w(i).now
  {
    hide Loop, TriedNodes, Success, Turn, Offsets;
    TriesRotate(w, cooldown, n, start, 0, 0, Error);
    var k := OffsetOf(start, n, node);
    assert k !in Offsets(w, cooldown, n, start, 0, 0, Error);
    SkipsOnlyUnusable(w, cooldown, n, start, 0, 0, Error, k);
  }

  /** Every node has its place in the rotation. */
  lemma OffsetOf(start: nat, n: nat, node: nat) returns (k: nat)
    requires node < n
    ensures k < n && Turn(start, k, n) == node
  {
    k := TurnFor(start, start / n, start % n, n, node);
  }

  function Settlements(events: seq<Event>): seq<Event> {
    if events == [] then []
    else (if events[0].Settled? then [events[0]] else []) + Settlements(events[1..])
  }

  lemma {:induction false} SettlementsAppend(x: seq<Event>, y: seq<Event>)
    ensures Settlements(x + y) == Settlements(x) + Settlements(y)
  {
    hide Settlements;
    if x == [] {
      assert x + y == y;
      NoSettlements();
    } else {
      var first, tail := x[0], x[1..];
      SettlementsAppend(tail, y);
      SettlementsFirst(first, tail);
      SettlementsFirst(first, tail + y);
      assert x == [first] + tail && x + y == [first] + (tail + y);
    }
  }

  lemma NoSettlements()
    ensures Settlements([]) == []
  {
  }

  lemma SettlementsFirst(e: Event, more: seq<Event>)
    ensures Settlements([e] + more) == (if e.Settled? then [e] else []) + Settlements(more)
  {
    assert ([e] + more)[1..] == more;
  }

  lemma RoundSettles(v: View, cooldown: int, n: nat, start: nat, offset: nat, a: nat, held: Reply)
    ensures var k, r := FirstOpen(v, start, offset, n), Attempt(v, cooldown, n, start, offset, a, held);
            Settlements(r.events)
            == if k < n && v.exchange.Sent?
               then [Settled(Turn(start, k, n), Settle(v, v.exchange.outcome, cooldown))] else []
  {
    var k := FirstOpen(v, start, offset, n);
    if k < n {
      hide FirstOpen, Settle, Turn, Eligible;
      var node := Turn(start, k, n);
      SettlementsAppend([Tried(node)], if held.Response? then [Drained(held.attempt)] else []);
      if v.exchange.Sent? {
        var outcome := v.exchange.outcome;
        var state := Settle(v, outcome, cooldown);
        SettlementsAppend(if outcome.Responded? then [Opened(a)] else [], [Settled(node, state)]);
        SettlementsAppend(Head(node, held), Body(a, outcome, node, state));
      }
    }
  }

  /** A node's condition after an exchange, in numbers. 200 to 299 clears it; other answers below
  500, save 401, 403 and 429, leave failures and cooldown alone; everything else counts a failure
  and waits 1, 2, 4 or 8 base delays, or what the server asks for if that is longer. */
  ghost predicate RightAfter(before: NodeState, o: Outcome, cooldown: int, now: int, after: NodeState) {
    && after.healthy == (if o.TransportError? then before.healthy && !o.proxyFailure
                         else before.healthy || 200 <= o.status < 600)
    && (if o.Responded? && o.status / 100 == 2 then after.failures == 0 && after.cooldownUntil == 0
        else if o.Responded? && o.status !in {401, 403, 429} && o.status < 500
        then after.failures == before.failures && after.cooldownUntil == before.cooldownUntil
        else
          var count := (before.failures + 1) % 0x1_0000_0000;
          var wait := cooldown * (if count == 1 then 1 else if count == 2 then 2 else if count == 3 then 4 else 8);
          && after.failures == count
          && after.cooldownUntil == now + if o.Responded? && o.retryAfter > wait then o.retryAfter else wait)
  }

  /** The attempt of view `v` settled the node it tried, rightly for its own outcome. */
  ghost predicate SettledAs(v: View, cooldown: int, node: nat, e: Event) {
    && v.exchange.Sent? && e.Settled? && e.node == node
    && RightAfter(v.returned, v.exchange.outcome, cooldown, v.later, e.state)
  }

  /** Attempt `a + i` does that, for every attempt that was sent. */
  ghost predicate SettledBy(w: World, cooldown: int, tried: seq<nat>, settled: seq<Event>, a: nat) {
    && |settled| <= |tried|
    && (forall i | 0 <= i < |settled| :: SettledAs(w(a + i), cooldown, tried[i], settled[i]))
    && (|settled| < |tried| ==> |settled| == |tried| - 1 && w(a + |settled|).exchange.Unbuildable?)
  }

  /** Over the whole loop, every attempt that was sent settles its node once, and nothing else does. */
  lemma {:induction false} SettlesEachAttempt(w: World, cooldown: int, n: nat, start: nat, offset: nat, a: nat, held: Reply)
    ensures var events := Loop(w, cooldown, n, start, offset, a, held).events;
            SettledBy(w, cooldown, TriedNodes(events), Settlements(events), a)
    decreases n - offset
  {
    hide Attempt, FirstOpen, Settle, Turn, TriedNodes, Settlements, RightAfter;
    if w(a).exchange.Sent? {
      SettledInNumbers(w(a), w(a).exchange.outcome, cooldown);
    }
    var k := FirstOpen(w(a), start, offset, n);
    var r := Attempt(w(a), cooldown, n, start, offset, a, held);
    RoundTries(w(a), cooldown, n, start, offset, a, held);
    RoundSettles(w(a), cooldown, n, start, offset, a, held);
    AttemptShape(w(a), cooldown, n, start, offset, a, held);
    if r.verdict.GoOn? {
      var rest := Loop(w, cooldown, n, start, r.offset, a + 1, r.verdict.held).events;
      SettlesEachAttempt(w, cooldown, n, start, r.offset, a + 1, r.verdict.held);
      TriedAppend(r.events, rest);
      SettlementsAppend(r.events, rest);
      SettledFront(w, cooldown, TriedNodes(r.events), Settlements(r.events), TriedNodes(rest), Settlements(rest), a);
    }
  }

  lemma SettledFront(w: World, cooldown: int, tried: seq<nat>, settled: seq<Event>, more: seq<nat>, rest: seq<Event>, a: nat)
    requires |tried| == |settled| == 1 && SettledAs(w(a), cooldown, tried[0], settled[0])
    requires SettledBy(w, cooldown, more, rest, a + 1)
    ensures SettledBy(w, cooldown, tried + more, settled + rest, a)
  {
    hide SettledAs;
    var all, nodes := settled + rest, tried + more;
    forall i | 0 <= i < |all| ensures SettledAs(w(a + i), cooldown, nodes[i], all[i]) {
      if i > 0 {
        var j := i - 1;
        assert all[i] == rest[j] && nodes[i] == more[j] && a + 1 + j == a + i;
      }
    }
    if |all| < |nodes| {
      assert a + 1 + |rest| == a + |all|;
    }
  }

  lemma SettledInNumbers(v: View, o: Outcome, cooldown: int)
    ensures RightAfter(v.returned, o, cooldown, v.later, Settle(v, o, cooldown))
  {
    hide Delay;
    SuccessIs2xx(o);
    DelayIs(cooldown, ((v.returned.failures + 1) % UINT32 - 1) % UINT32);
    CountBack((v.returned.failures + 1) % UINT32);
  }

  lemma CountBack(count: nat)
    requires count < UINT32
    ensures (count - 1) % UINT32 == if count == 0 then UINT32 - 1 else count - 1
  {
  }

  /** The node whose answer ends the loop is left healthy and with nothing held against it. */
  lemma SuccessClearsItsNode(w: World, cooldown: int, n: nat, start: nat)
    ensures var events := Loop(w, cooldown, n, start, 0, 0, Error).events;
            var m := |TriedNodes(events)|;
            m > 0 && Answered(w(m - 1).exchange) ==>
              Settlements(events) != []
              && Settlements(events)[|Settlements(events)| - 1]
                 == Settled(TriedNodes(events)[m - 1], NodeState(true, 0, 0))
  {
    hide Loop, TriedNodes, Settlements, Settle;
    var events := Loop(w, cooldown, n, start, 0, 0, Error).events;
    var m := |TriedNodes(events)|;
    SettlesEachAttempt(w, cooldown, n, start, 0, 0, Error);
    if m > 0 && Answered(w(m - 1).exchange) {
      var i := m - 1;
      assert |Settlements(events)| == m;
      assert SettledAs(w(0 + i), cooldown, TriedNodes(events)[i], Settlements(events)[i]);
    }
  }

  // ---- Response bodies ---------------------------------------------------------------------

  /** The open body, if any, and the least number a body not yet seen can have. */
  datatype Account = Open(held: Reply, next: nat) | Broken

  /** A body is opened at most once, while no other is open; only the open body is drained. */
  function Post(e: Event, t: Account): Account {
    match e
    case Opened(i) => if t.Open? && t.held == Error && i >= t.next then Open(Response(i), i + 1) else Broken
    case Drained(i) => if t.Open? && t.held == Response(i) then Open(Error, t.next) else Broken
    case _ => t
  }

  function Ledger(events: seq<Event>, t: Account): Account {
    if events == [] then t else Ledger(events[1..], Post(events[0], t))
  }

  lemma {:induction false} LedgerAppend(x: seq<Event>, y: seq<Event>, t: Account)
    ensures Ledger(x + y, t) == Ledger(y, Ledger(x, t))
  {
    if x == [] {
      assert x + y == y;
    } else {
      assert (x + y)[1..] == x[1..] + y;
      LedgerAppend(x[1..], y, Post(x[0], t));
    }
  }

  ghost predicate Balances(events: seq<Event>, before: Account, after: Reply, limit: nat) {
    var t := Ledger(events, before);
    t.Open? && t.held == after && t.next <= limit
  }

  lemma RoundBalances(v: View, cooldown: int, n: nat, start: nat, offset: nat, a: nat, held: Reply, next: nat)
    requires next <= a
    ensures var r := Attempt(v, cooldown, n, start, offset, a, held);
            Balances(r.events, Open(held, next), if r.verdict.Stop? then r.verdict.reply else r.verdict.held, a + 1)
  {
    var k := FirstOpen(v, start, offset, n);
    if k < n {
      hide FirstOpen, Settle, Turn, Eligible;
      var node := Turn(start, k, n);
      HeadBalances(node, held, next);
      if v.exchange.Sent? {
        var outcome := v.exchange.outcome;
        var state := Settle(v, outcome, cooldown);
        BodyBalances(a, outcome, node, state, next);
        LedgerAppend(Head(node, held), Body(a, outcome, node, state), Open(held, next));
        SuccessResponds(v.exchange);
      }
    }
  }

  lemma HeadBalances(node: nat, held: Reply, next: nat)
    ensures Ledger(Head(node, held), Open(held, next)) == Open(Error, next)
  {
    LedgerAppend([Tried(node)], if held.Response? then [Drained(held.attempt)] else [], Open(held, next));
  }

  lemma BodyBalances(a: nat, outcome: Outcome, node: nat, state: NodeState, next: nat)
    requires next <= a
    ensures Balances(Body(a, outcome, node, state), Open(Error, next),
                     if outcome.Responded? then Response(a) else Error, a + 1)
  {
    LedgerAppend(if outcome.Responded? then [Opened(a)] else [], [Settled(node, state)], Open(Error, next));
  }

  /** Ownership: every body the loop obtains is obtained once and drained exactly once, unless it
  is the one the loop returns, and no two are ever open together. */
  lemma {:induction false} BodiesAccountedFor(w: World, cooldown: int, n: nat, start: nat, offset: nat, a: nat, held: Reply, next: nat)
    requires offset <= n && next <= a
    ensures var loop := Loop(w, cooldown, n, start, offset, a, held);
            var t := Ledger(loop.events, Open(held, next));
            t.Open? && t.held == loop.reply
    decreases n - offset
  {
    hide Attempt, Ledger;
    var r := Attempt(w(a), cooldown, n, start, offset, a, held);
    RoundBalances(w(a), cooldown, n, start, offset, a, held, next);
    if r.verdict.GoOn? {
      var t := Ledger(r.events, Open(held, next));
      BodiesAccountedFor(w, cooldown, n, start, r.offset, a + 1, r.verdict.held, t.next);
      LedgerAppend(r.events, Loop(w, cooldown, n, start, r.offset, a + 1, r.verdict.held).events, Open(held, next));
    }
  }

  lemma {:induction false} BrokenStays(events: seq<Event>)
    ensures Ledger(events, Broken) == Broken
  {
    if events != [] {
      BrokenStays(events[1..]);
    }
  }

  /** A violation is never recovered from, so the account is in order at every point of the loop. */
  lemma AlwaysInOrder(w: World, cooldown: int, n: nat, start: nat, k: nat)
    requires k <= |Loop(w, cooldown, n, start, 0, 0, Error).events|
    ensures Ledger(Loop(w, cooldown, n, start, 0, 0, Error).events[..k], Open(Error, 0)).Open?
  {
    hide Loop, Ledger;
    var events := Loop(w, cooldown, n, start, 0, 0, Error).events;
    BodiesAccountedFor(w, cooldown, n, start, 0, 0, Error, 0);
    assert events == events[..k] + events[k..];
    LedgerAppend(events[..k], events[k..], Open(Error, 0));
    BrokenStays(events[k..]);
  }
}
