/** The failover loop: one request tried over the pool's nodes until a 2xx answer.

Everything outside the loop is the `World`: the condition other requests and health checks have
left the nodes in, before each look at the pool and again when the attempt's node is settled; the
clock; and what the attempt's request came back with. Nothing is assumed about it, so the results
hold whatever others do between those points; a look and a settling are one step each. */
module Failover {
  import opened Pool

  datatype Exchange = Unbuildable | Sent(outcome: Outcome)

  /** `node` and `now` are what the look sees; `returned` and `later` the tried node's condition and
  the time when the exchange is over. */
  datatype View = View(node: nat -> NodeState, now: int, exchange: Exchange, returned: NodeState, later: int)

  type World = nat -> View

  /** What the loop does to nodes and response bodies; attempts number the responses. */
  datatype Event =
    | Tried(node: nat)
    | Opened(attempt: nat)
    | Drained(attempt: nat)
    | Settled(node: nat, state: NodeState)

  /** A response for the caller, or an error. */
  datatype Reply = Response(attempt: nat) | Error

  datatype Outline = Outline(events: seq<Event>, reply: Reply)

  function Settle(v: View, outcome: Outcome, cooldown: int): NodeState {
    var s := Synced(v.returned, outcome);
    if Success(outcome) then NodeState(s.healthy, 0, 0) else Failed(s, outcome, cooldown, v.later)
  }

  /** First offset from `offset` whose node can be used, or `n`. */
  function FirstOpen(v: View, start: nat, offset: nat, n: nat): (k: nat)
    ensures k <= n || k == offset
    ensures offset <= k
    ensures k < n ==> Eligible(v.node(Turn(start, k, n)), v.now)
    ensures forall j | offset <= j < k && j < n :: !Eligible(v.node(Turn(start, j, n)), v.now)
    decreases n - offset
  {
    if offset >= n then offset
    else if Eligible(v.node(Turn(start, offset, n)), v.now) then offset
    else FirstOpen(v, start, offset + 1, n)
  }

  /** One round of the loop: what it did, how far the cursor is, and whether to go on. */
  datatype Round = Round(events: seq<Event>, offset: nat, verdict: Verdict)

  datatype Verdict = Stop(reply: Reply) | GoOn(held: Reply)

  /** The node is taken and the previous answer, if any, is given up. */
  function Head(node: nat, held: Reply): seq<Event> {
    [Tried(node)] + (if held.Response? then [Drained(held.attempt)] else [])
  }

  /** The request is made and the node's condition brought up to date. */
  function Body(a: nat, outcome: Outcome, node: nat, state: NodeState): seq<Event> {
    (if outcome.Responded? then [Opened(a)] else []) + [Settled(node, state)]
  }

  function Attempt(v: View, cooldown: int, n: nat, start: nat, offset: nat, a: nat, held: Reply): (r: Round)
    ensures r.verdict.GoOn? ==> offset < r.offset <= n
  {
    var k := FirstOpen(v, start, offset, n);
    if k >= n then Round([], k, Stop(held))
    else
      var node := Turn(start, k, n);
      match v.exchange
      case Unbuildable => Round(Head(node, held), k + 1, Stop(Error))
      case Sent(outcome) =>
        Round(Head(node, held) + Body(a, outcome, node, Settle(v, outcome, cooldown)), k + 1,
              if Success(outcome) then Stop(Response(a))
              else GoOn(if outcome.Responded? then Response(a) else Error))
  }

  /** The loop from attempt `a` on, holding the previous attempt's response. */
  function Loop(w: World, cooldown: int, n: nat, start: nat, offset: nat, a: nat, held: Reply): Outline
    decreases n - offset
  {
    var r := Attempt(w(a), cooldown, n, start, offset, a, held);
    match r.verdict
    case Stop(reply) => Outline(r.events, reply)
    case GoOn(next) =>
      var rest := Loop(w, cooldown, n, start, r.offset, a + 1, next);
      Outline(r.events + rest.events, rest.reply)
  }

  // ---- The loop itself ---------------------------------------------------------------------

  method DoAnonymousUpstream(pool: AnonymousPool, session: string, body: string, w: World)
    returns (reply: Reply, events: seq<Event>)
    requires forall i, j | 0 <= i < j < |pool.nodes| :: pool.nodes[i] != pool.nodes[j]
    modifies pool`next, pool.nodes
    ensures body == "" ==> reply == Error && events == []
    ensures body != "" ==>
              Outline(events, reply)
              == Loop(w, pool.cooldown, |pool.nodes|,
                      StartFor(old(pool.next), pool.hash, session, |pool.nodes|), 0, 0, Error)
  {
    hide Attempt, StartFor;
    events := [];
    reply := Error;
    var cursor := pool.CursorFor(session);
    var limit := |pool.nodes|;
    var attempts := 0;
    if |body| == 0 {
      return;
    }
    ghost var goal := Loop(w, pool.cooldown, limit, cursor.start, 0, 0, Error);
    var lastResponse: Reply := Error;
    while attempts < limit
      invariant cursor.pool == pool && fresh(cursor)
      invariant attempts <= cursor.offset <= limit
      invariant var rest := Loop(w, pool.cooldown, limit, cursor.start, cursor.offset, attempts, lastResponse);
                goal.events == events + rest.events && goal.reply == rest.reply
      decreases limit - attempts
    {
      var done, verdict := TryNext(pool, cursor, attempts, lastResponse, w(attempts));
      events := events + done;
      if verdict.Stop? {
        reply := verdict.reply;
        return;
      }
      lastResponse := verdict.held;
      attempts := attempts + 1;
    }
    if attempts >= limit {
      NothingLeft(w(attempts), pool.cooldown, limit, cursor.start, cursor.offset, attempts, lastResponse);
    }
    reply := lastResponse;
  }

  /** One round: take the next usable node, give up the held response, send, settle the node. */
  method TryNext(pool: AnonymousPool, cursor: AnonymousCursor, attempt: nat, held: Reply, v: View)
    returns (events: seq<Event>, verdict: Verdict)
    requires forall i, j | 0 <= i < j < |pool.nodes| :: pool.nodes[i] != pool.nodes[j]
    requires cursor.pool == pool && cursor.offset <= |pool.nodes|
    modifies pool.nodes, cursor`offset
    ensures Round(events, cursor.offset, verdict)
         == Attempt(v, pool.cooldown, |pool.nodes|, cursor.start, old(cursor.offset), attempt, held)
  {
    hide Eligible, FirstOpen;
    OtherRequests(pool, v);
    var node := cursor.Next(v.now);
    if node == null {
      NoneOpen(v, cursor.start, old(cursor.offset), |pool.nodes|);
      return [], Stop(held);
    }
    var turn := Turn(cursor.start, cursor.offset - 1, |pool.nodes|);
    OpenHere(v, cursor.start, old(cursor.offset), cursor.offset - 1, |pool.nodes|);
    events := [Tried(turn)];
    if held.Response? {
      events := events + [Drained(held.attempt)];
    }
    if v.exchange.Unbuildable? {
      return events, Stop(Error);
    }
    var outcome := v.exchange.outcome;
    var opening := if outcome.Responded? then [Opened(attempt)] else [];
    node.Overwrite(v.returned);
    SettleNode(node, outcome, pool.cooldown, v);
    events := events + (opening + [Settled(turn, node.State())]);
    verdict := if Success(outcome) then Stop(Response(attempt))
               else GoOn(if outcome.Responded? then Response(attempt) else Error);
  }

  /** Health and cooldown bookkeeping after one exchange. */
  method SettleNode(node: AnonymousNode, outcome: Outcome, cooldown: int, v: View)
    requires node.State() == v.returned
    modifies node
    ensures node.State() == Settle(v, outcome, cooldown)
  {
    node.Sync(outcome);
    if Success(outcome) {
      node.MarkSuccess();
    } else {
      node.MarkFailure(outcome, cooldown, v.later);
    }
  }

  method OtherRequests(pool: AnonymousPool, v: View)
    requires forall i, j | 0 <= i < j < |pool.nodes| :: pool.nodes[i] != pool.nodes[j]
    modifies pool.nodes
    ensures forall i | 0 <= i < |pool.nodes| :: pool.nodes[i].State() == v.node(i)
  {
    for i := 0 to |pool.nodes|
      invariant forall j | 0 <= j < i :: pool.nodes[j].State() == v.node(j)
    {
      pool.nodes[i].Overwrite(v.node(i));
    }
  }

  lemma NothingLeft(v: View, cooldown: int, n: nat, start: nat, offset: nat, a: nat, held: Reply)
    requires offset >= n
    ensures Attempt(v, cooldown, n, start, offset, a, held) == Round([], offset, Stop(held))
  {
  }

  lemma {:induction false} NoneOpen(v: View, start: nat, offset: nat, n: nat)
    requires offset <= n
    requires forall j | offset <= j < n :: !Eligible(v.node(Turn(start, j, n)), v.now)
    ensures FirstOpen(v, start, offset, n) == n
  {
  }

  lemma OpenHere(v: View, start: nat, offset: nat, k: nat, n: nat)
    requires offset <= k < n && Eligible(v.node(Turn(start, k, n)), v.now)
    requires forall j | offset <= j < k :: !Eligible(v.node(Turn(start, j, n)), v.now)
    ensures FirstOpen(v, start, offset, n) == k
  {
  }
}
