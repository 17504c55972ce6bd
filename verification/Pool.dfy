/** The anonymous proxy pool: tickets, cursors and cooldowns.

Clocks, the affinity hash and parsed Retry-After delays are inputs; durations are unbounded
integers. The two counters wrap as the code's do. */
module Pool {
  import opened Common
  import opened Arithmetic

  const UINT32 := 0x1_0000_0000
  const UINT64 := 0x1_0000_0000_0000_0000

  datatype NodeState = NodeState(healthy: bool, failures: nat, cooldownUntil: int)

  /** What came back from one request. `retryAfter` is the parsed header, 0 when absent. */
  datatype Outcome =
    | TransportError(proxyFailure: bool)
    | Responded(status: int, retryAfter: int)

  predicate Eligible(s: NodeState, now: int) {
    s.healthy && s.cooldownUntil <= now
  }

  predicate Success(o: Outcome) {
    o.Responded? && 200 <= o.status < 300
  }

  /** Outcomes that count against a node; other client errors and redirects do not. */
  predicate Penalised(o: Outcome) {
    o.TransportError? || o.status in {401, 403, 429} || o.status >= 500
  }

  /** syncProxyResult. */
  function Synced(s: NodeState, o: Outcome): NodeState {
    match o
    case TransportError(proxyFailure) => if proxyFailure then s.(healthy := false) else s
    case Responded(status, _) => if 200 <= status < 600 then s.(healthy := true) else s
  }

  /** Base delay doubled once per earlier failure, at most three times. */
  function Delay(cooldown: int, earlier: nat): int {
    cooldown * Pow2(Min(earlier, 3))
  }

  function Failed(s: NodeState, o: Outcome, cooldown: int, now: int): NodeState {
    if !Penalised(o) then s
    else
      var failures := (s.failures + 1) % UINT32;
      var delay := Delay(cooldown, (failures - 1) % UINT32);
      var wait := if o.Responded? && o.retryAfter > delay then o.retryAfter else delay;
      NodeState(s.healthy, failures, now + wait)
  }

  class AnonymousNode {
    var healthy: bool
    var failures: nat
    var cooldownUntil: int

    constructor ()
      ensures State() == NodeState(true, 0, 0)
    {
      healthy, failures, cooldownUntil := true, 0, 0;
    }

    function State(): NodeState
      reads this
    {
      NodeState(healthy, failures, cooldownUntil)
    }

    /** Health checks and other requests write the node's fields at any time. */
    method Overwrite(s: NodeState)
      modifies this
      ensures State() == s
    {
      healthy, failures, cooldownUntil := s.healthy, s.failures, s.cooldownUntil;
    }

    method Sync(o: Outcome)
      modifies this
      ensures State() == Synced(old(State()), o)
    {
      if o.TransportError? && o.proxyFailure {
        healthy := false;
        return;
      }
      if o.Responded? && o.status >= 200 && o.status < 600 {
        healthy := true;
      }
    }

    method MarkSuccess()
      modifies this
      ensures State() == NodeState(old(healthy), 0, 0)
    {
      failures := 0;
      cooldownUntil := 0;
    }

    method MarkFailure(o: Outcome, cooldown: int, now: int)
      modifies this
      ensures State() == Failed(old(State()), o, cooldown, now)
    {
      if o.Responded? && o.status != 401 && o.status != 403 && o.status != 429 && o.status < 500 {
        return;
      }
      failures := (failures + 1) % UINT32;
      var delay := Delay(cooldown, (failures - 1) % UINT32);
      if o.Responded? {
        if o.retryAfter > delay {
          delay := o.retryAfter;
        }
      }
      cooldownUntil := now + delay;
    }
  }

  // ---- Rotation ----------------------------------------------------------------------------

  function Turn(start: nat, offset: nat, n: nat): (v: nat)
    requires n > 0
    ensures v < n
  {
    (start + offset) % n
  }

  /** Where a cursor starts: by ticket without an affinity, by its hash with one. */
  function StartFor(count: nat, hash: string -> nat, affinity: string, n: nat): nat {
    if n == 0 then 0
    else if affinity == "" then Ticket(count, 0, n)
    else hash(affinity) % n
  }

  class AnonymousPool {
    const nodes: seq<AnonymousNode>
    const cooldown: int
    const hash: string -> nat
    var next: nat

    constructor (nodes: seq<AnonymousNode>, cooldown: int, hash: string -> nat)
      ensures this.nodes == nodes && this.cooldown == cooldown && this.hash == hash && next == 0
    {
      this.nodes, this.cooldown, this.hash, next := nodes, cooldown, hash, 0;
    }

    method CursorFor(affinity: string) returns (cursor: AnonymousCursor)
      modifies this`next
      ensures fresh(cursor) && cursor.pool == this && cursor.offset == 0
      ensures cursor.start == StartFor(old(next), hash, affinity, |nodes|)
      ensures next == if |nodes| > 0 && affinity == "" then (old(next) + 1) % UINT64 else old(next)
    {
      var start := 0;
      if |nodes| > 0 {
        if affinity == "" {
          next := (next + 1) % UINT64;
          start := (next - 1) % UINT64 % |nodes|;
          TicketIsOldCount(old(next));
        } else {
          start := hash(affinity) % |nodes|;
        }
      }
      cursor := new AnonymousCursor(this, start);
    }
  }

  class AnonymousCursor {
    const pool: AnonymousPool
    const start: nat
    var offset: nat

    constructor (pool: AnonymousPool, start: nat)
      ensures this.pool == pool && this.start == start && offset == 0
    {
      this.pool, this.start, offset := pool, start, 0;
    }

    /** The next eligible node at or after the cursor; every node it passes over is left behind. */
    method Next(now: int) returns (node: AnonymousNode?)
      modifies this`offset
      ensures node == null ==>
                && offset == Max(old(offset), |pool.nodes|)
                && forall k | old(offset) <= k < |pool.nodes| ::
                     !Eligible(pool.nodes[Turn(start, k, |pool.nodes|)].State(), now)
      ensures node != null ==>
                && old(offset) < offset <= |pool.nodes|
                && node == pool.nodes[Turn(start, offset - 1, |pool.nodes|)]
                && Eligible(node.State(), now)
                && forall k | old(offset) <= k < offset - 1 ::
                     !Eligible(pool.nodes[Turn(start, k, |pool.nodes|)].State(), now)
    {
      while offset < |pool.nodes|
        invariant old(offset) <= offset <= Max(old(offset), |pool.nodes|)
        invariant forall k | old(offset) <= k < offset ::
                    !Eligible(pool.nodes[Turn(start, k, |pool.nodes|)].State(), now)
      {
        var candidate := pool.nodes[Turn(start, offset, |pool.nodes|)];
        offset := offset + 1;
        if candidate.healthy && candidate.cooldownUntil <= now {
          return candidate;
        }
      }
      return null;
    }
  }

  /** A cursor hands out no node twice: different offsets are different nodes. */
  lemma TurnsDiffer(start: nat, i: nat, j: nat, n: nat)
    requires i < j < n
    ensures Turn(start, i, n) != Turn(start, j, n)
  {
    var a, b := (start + i) / n, (start + j) / n;
    NoMultipleBetween(n, b - a);
    assert n * (b - a) == n * b - n * a;
  }

  /** From its start a cursor goes up one node at a time and wraps at the last. */
  lemma TurnsGoUp(start: nat, k: nat, n: nat)
    requires start < n
    ensures Turn(start, 0, n) == start
    ensures Turn(start, k + 1, n) == if Turn(start, k, n) == n - 1 then 0 else Turn(start, k, n) + 1
  {
    Residue(n, 0, start);
    NextResidue(start + k, n);
  }

  lemma NextResidue(x: nat, n: nat)
    requires n > 0
    ensures (x + 1) % n == if x % n == n - 1 then 0 else x % n + 1
  {
    var q, t := x / n, x % n;
    if t == n - 1 {
      NextRound(n, q);
      Residue(n, q + 1, 0);
    } else {
      Residue(n, q, t + 1);
    }
  }

  lemma NextRound(n: nat, q: nat)
    ensures n * q + n == n * (q + 1)
  {
  }

  // ---- Tickets -----------------------------------------------------------------------------

  /** Start of the i-th cursor taken after the counter read `count`. */
  function Ticket(count: nat, i: nat, n: nat): nat
    requires n > 0
  {
    (count + i) % UINT64 % n
  }

  lemma TicketIsOldCount(count: nat)
    ensures ((count + 1) % UINT64 - 1) % UINT64 == count % UINT64
  {
    var c := count % UINT64;
    assert (count + 1) % UINT64 == (c + 1) % UINT64;
  }

  /** The counter after k cursors without an affinity. */
  function Counted(count: nat, k: nat): nat {
    if k == 0 then count else (Counted(count, k - 1) + 1) % UINT64
  }

  lemma {:induction false} CountedIs(count: nat, k: nat)
    requires count < UINT64
    ensures Counted(count, k) == (count + k) % UINT64
  {
    if k > 0 {
      CountedIs(count, k - 1);
      CountOn(count + (k - 1));
    }
  }

  lemma CountOn(x: nat)
    ensures (x % UINT64 + 1) % UINT64 == (x + 1) % UINT64
  {
  }

  /** Cursors without an affinity take their tickets one after the other; one with an affinity
  starts where its hash says, whatever the counter. */
  lemma CursorsTakeTickets(count: nat, k: nat, hash: string -> nat, affinity: string, n: nat)
    requires n > 0 && count < UINT64
    ensures StartFor(Counted(count, k), hash, "", n) == Ticket(count, k, n)
    ensures affinity != "" ==> StartFor(Counted(count, k), hash, affinity, n) == hash(affinity) % n
  {
    CountedIs(count, k);
    TicketOf(count, k, n);
    hide Counted, Ticket;
  }

  lemma TicketOf(count: nat, k: nat, n: nat)
    requires n > 0
    ensures Ticket((count + k) % UINT64, 0, n) == Ticket(count, k, n)
  {
    WrapTwice(count + k);
  }

  lemma WrapTwice(x: nat)
    ensures (x % UINT64) % UINT64 == x % UINT64
  {
  }

  /** Any n consecutive empty-affinity cursors start at n different nodes. */
  ghost predicate Fair(count: nat, n: nat)
    requires n > 0
  {
    forall i, j | 0 <= i < j < n :: Ticket(count, i, n) != Ticket(count, j, n)
  }

  lemma Wrapped(x: nat)
    requires x < 2 * UINT64
    ensures x % UINT64 == if x < UINT64 then x else x - UINT64
  {
  }

  lemma PlainTicket(count: nat, i: nat, n: nat)
    requires count < UINT64 && i < n <= UINT64
    requires count + n <= UINT64 || UINT64 % n == 0
    ensures Ticket(count, i, n) == Turn(count, i, n)
  {
    Wrapped(count + i);
    if count + i >= UINT64 {
      var q := UINT64 / n;
      assert UINT64 == n * q;
      SameResidue(n, q, count + i - UINT64);
    }
  }

  /** Two cursors of one window meet when the counter wraps in it, `w` tickets in, off a round. */
  lemma TicketsMeet(count: nat, n: nat, q: nat, r: nat, w: nat)
    requires UINT64 == n * q + r && 0 < r < n && 0 < w < n && count + w == UINT64
    ensures if r >= w then Ticket(count, 0, n) == Ticket(count, r, n)
            else Ticket(count, w - r, n) == Ticket(count, w, n)
  {
    if r >= w {
      Wrapped(count);
      Wrapped(count + r);
      Residue(n, q, r - w);
      Residue(n, 0, r - w);
    } else {
      Wrapped(count + (w - r));
      Wrapped(count + w);
      Residue(n, q, 0);
      Residue(n, 0, 0);
    }
  }

  /** Tickets are fair exactly when the 64-bit counter does not wrap inside the window, or wraps
  where a whole number of rounds ends anyway. */
  lemma FairIff(count: nat, n: nat)
    requires count < UINT64 && 0 < n <= UINT64
    ensures Fair(count, n) <==> count + n <= UINT64 || UINT64 % n == 0
  {
    hide Ticket, Turn;
    if count + n <= UINT64 || UINT64 % n == 0 {
      forall i, j | 0 <= i < j < n ensures Ticket(count, i, n) != Ticket(count, j, n) {
        TurnsDiffer(count, i, j, n);
        PlainTicket(count, i, n);
        PlainTicket(count, j, n);
      }
    } else {
      TicketsMeet(count, n, UINT64 / n, UINT64 % n, UINT64 - count);
    }
  }

  /** The condition is needed: with three nodes, tickets taken as the counter wraps meet. */
  lemma UnfairExample()
    ensures Ticket(UINT64 - 1, 0, 3) == Ticket(UINT64 - 1, 1, 3) && !Fair(UINT64 - 1, 3)
  {
    assert UINT64 % 3 == 1;
    TicketsMeet(UINT64 - 1, 3, UINT64 / 3, 1, 1);
  }

  /** Under the same condition every node gets its turn in the window. */
  lemma EveryNodeServed(count: nat, n: nat, node: nat) returns (i: nat)
    requires count < UINT64 && 0 < n <= UINT64 && node < n
    requires count + n <= UINT64 || UINT64 % n == 0
    ensures i < n && Ticket(count, i, n) == node
  {
    i := TurnFor(count, count / n, count % n, n, node);
    PlainTicket(count, i, n);
  }

  lemma TurnFor(count: nat, q: nat, c: nat, n: nat, node: nat) returns (i: nat)
    requires count == n * q + c && c < n && node < n
    ensures i < n && Turn(count, i, n) == node
  {
    i := if node >= c then node - c else node - c + n;
    Residue(n, q, node);
    Residue(n, q + 1, node);
    assert n * (q + 1) == n * q + n;
    assert count + i == (if node >= c then n * q + node else n * (q + 1) + node);
  }

  // ---- Cooldown over runs ------------------------------------------------------------------

  /** A node after a run of counted failures, the last one seen at `now`. */
  function FailedTimes(s: NodeState, k: nat, cooldown: int, at: nat -> int, outcomes: nat -> Outcome): NodeState {
    if k == 0 then s
    else Failed(FailedTimes(s, k - 1, cooldown, at, outcomes), outcomes(k - 1), cooldown, at(k - 1))
  }

  lemma DelayIs(cooldown: int, earlier: nat)
    ensures Delay(cooldown, earlier)
         == cooldown * (if earlier == 0 then 1 else if earlier == 1 then 2 else if earlier == 2 then 4 else 8)
  {
    assert Pow2(2) == 4 && Pow2(3) == 8;
  }

  lemma WrapBack(k: nat)
    requires k > 0
    ensures ((k - 1) % UINT32 + 1) % UINT32 == k % UINT32
    ensures (k % UINT32 - 1) % UINT32 == (k - 1) % UINT32
  {
  }

  /** After the k-th failure in a row the node waits the base delay doubled k-1 times, capped at
  eight times the base, or the server's Retry-After if that is longer. The failure count is a
  32-bit counter, so the doubling starts over after 2^32 failures. */
  lemma {:induction false} CooldownAfter(s: NodeState, k: nat, cooldown: int, at: nat -> int, outcomes: nat -> Outcome)
    requires s.failures == 0 && k > 0
    requires forall i | 0 <= i < k :: Penalised(outcomes(i))
    ensures var t := FailedTimes(s, k, cooldown, at, outcomes);
            var earlier := (k - 1) % UINT32;
            var delay := cooldown * (if earlier == 0 then 1 else if earlier == 1 then 2 else if earlier == 2 then 4 else 8);
            var o := outcomes(k - 1);
            && t.failures == k % UINT32
            && t.cooldownUntil == at(k - 1) + (if o.Responded? then Max(o.retryAfter, delay) else delay)
  {
    hide Delay, Penalised;
    DelayIs(cooldown, (k - 1) % UINT32);
    if k > 1 {
      CooldownAfter(s, k - 1, cooldown, at, outcomes);
    } else {
      assert FailedTimes(s, 0, cooldown, at, outcomes) == s;
    }
    WrapBack(k);
  }
}
