/** `MySQLConnectionPool`: a FIFO queue of idle connections and a count of created
    connections capped by `max_connections`, seen one critical section at a time. */
module ConnectionPool {
  import opened AppConfig

  /** A live connection, named by the order in which the pool created it: the
      connection created while the count stood at `n` is `n`. */
  type Conn = nat

  /** What a call of `getConnection` gets: a connection wrapped in a handle whose
      deleter returns it, or nothing yet because the caller has to wait. */
  datatype Acquired = Handle(conn: Conn) | WouldBlock

  /** The pool's state: the idle queue (head first), the count of connections ever
      created, and the connections handed out and not yet returned. */
  datatype PoolState = PoolState(idle: seq<Conn>, created: nat, out: set<Conn>)

  predicate Distinct(s: seq<Conn>) {
    forall i, j :: 0 <= i < j < |s| ==> s[i] != s[j]
  }

  /** The pool's invariant: at most `max` connections exist, each created one is
      either idle (once) or handed out, never both. */
  predicate Inv(p: PoolState, max: nat) {
    && p.created <= max
    && Distinct(p.idle)
    && (forall c :: c in p.idle ==> c < p.created && c !in p.out)
    && (forall c :: c in p.out ==> c < p.created)
    && |p.idle| + |p.out| == p.created
  }

  /** A new pool: nothing idle, nothing created, nothing handed out. */
  function NewPool(): (p: PoolState)
    ensures forall max: nat :: Inv(p, max)
  {
    PoolState([], 0, {})
  }

  /** Taking the head of a non-empty idle queue, as the first branch of
      `getConnection` does and as the waiting branch does once it is woken. */
  function TakeHead(p: PoolState, max: nat): (r: (PoolState, Conn))
    requires p.idle != []
    ensures Inv(p, max) ==> Inv(r.0, max)
    ensures Inv(p, max) ==> r.1 !in p.out && r.1 !in r.0.idle
    ensures r.1 in r.0.out && r.0.created == p.created && |r.0.idle| == |p.idle| - 1
  {
    var r := (PoolState(p.idle[1..], p.created, p.out + {p.idle[0]}), p.idle[0]);
    if Inv(p, max) then TakeHeadKeepsInv(p, max); r else r
  }

  lemma TakeHeadKeepsInv(p: PoolState, max: nat)
    requires Inv(p, max) && p.idle != []
    ensures Inv(PoolState(p.idle[1..], p.created, p.out + {p.idle[0]}), max)
    ensures p.idle[0] !in p.idle[1..]
  {
    var h, rest := p.idle[0], p.idle[1..];
    forall i, j | 0 <= i < j < |rest|
      ensures rest[i] != rest[j]
    {
      assert rest[i] == p.idle[i + 1] && rest[j] == p.idle[j + 1];
    }
    forall c | c in rest
      ensures c < p.created && c !in p.out + {h}
    {
      var k :| 0 <= k < |rest| && rest[k] == c;
      assert c == p.idle[k + 1] && c in p.idle;
      assert p.idle[0] != p.idle[k + 1];
    }
    assert h in p.idle && h !in p.out;
    assert |p.out + {h}| == |p.out| + 1;
  }

  /** A woken waiter pops the queue: it receives the head, the rest of the queue stays
      in order, and nothing is created. */
  lemma WokenWaiterTakesHead(p: PoolState, max: nat)
    requires p.idle != []
    ensures TakeHead(p, max).1 == p.idle[0]
    ensures TakeHead(p, max).0.idle == p.idle[1..]
    ensures TakeHead(p, max).0.created == p.created
  {
  }

  /** `getConnection` up to the wait: reuse the head of the idle queue; otherwise, under
      the cap, open a new connection if the connector succeeds; otherwise wait.
      `connectorOk` is what `createConnection` would report. */
  function Acquire(p: PoolState, max: nat, connectorOk: bool): (r: (PoolState, Acquired))
    ensures Inv(p, max) ==> Inv(r.0, max)
    ensures Inv(p, max) && r.1.Handle? ==> r.1.conn !in p.out && r.1.conn in r.0.out && r.1.conn !in r.0.idle
    ensures r.1.WouldBlock? <==> p.idle == [] && !(p.created < max && connectorOk)
    ensures r.1.WouldBlock? ==> r.0 == p
    ensures r.0.created == if p.idle == [] && r.1.Handle? then p.created + 1 else p.created
  {
    if p.idle != [] then
      var (q, c) := TakeHead(p, max);
      (q, Handle(c))
    else if p.created < max && connectorOk then
      (PoolState([], p.created + 1, p.out + {p.created}), Handle(p.created))
    else
      (p, WouldBlock)
  }

  /** `returnConnection`: the connection goes to the back of the idle queue. */
  function Return(p: PoolState, c: Conn): (r: PoolState)
    ensures r.created == p.created && |r.idle| == |p.idle| + 1 && r.idle[|p.idle|] == c
    ensures c !in r.out
  {
    PoolState(p.idle + [c], p.created, p.out - {c})
  }

  lemma ReturnKeepsInv(p: PoolState, max: nat, c: Conn)
    requires Inv(p, max) && c in p.out
    ensures Inv(Return(p, c), max)
  {
  }

  /** One thing a caller can do to the pool. `Resume` is a waiting caller woken after
      the queue became non-empty. */
  datatype Event = Get(connectorOk: bool) | Resume | Release(conn: Conn)

  /** The calls a well-behaved program can make: a waiter resumes only once something
      is idle, and only a handed-out connection is returned. */
  predicate Allowed(p: PoolState, e: Event) {
    match e
    case Get(_) => true
    case Resume => p.idle != []
    case Release(c) => c in p.out
  }

  function Step(p: PoolState, max: nat, e: Event): PoolState
    requires Allowed(p, e)
  {
    match e
    case Get(ok) => Acquire(p, max, ok).0
    case Resume => TakeHead(p, max).0
    case Release(c) => Return(p, c)
  }

  predicate AllowedRun(p: PoolState, max: nat, es: seq<Event>)
    decreases |es|
  {
    es == [] || (Allowed(p, es[0]) && AllowedRun(Step(p, max, es[0]), max, es[1..]))
  }

  function Run(p: PoolState, max: nat, es: seq<Event>): PoolState
    requires AllowedRun(p, max, es)
    decreases |es|
  {
    if es == [] then p else Run(Step(p, max, es[0]), max, es[1..])
  }

  /** Every allowed sequence of calls keeps the invariant. */
  lemma {:induction false} RunKeepsInv(p: PoolState, max: nat, es: seq<Event>)
    requires Inv(p, max) && AllowedRun(p, max, es)
    ensures Inv(Run(p, max, es), max)
    decreases |es|
  {
    if es != [] {
      if es[0].Release? {
        ReturnKeepsInv(p, max, es[0].conn);
      }
      RunKeepsInv(Step(p, max, es[0]), max, es[1..]);
    }
  }

  /** The capacity guarantee: whatever a program does with a new pool, never more than
      `max` connections exist, so never more than `max` are handed out at once. */
  lemma Capacity(max: nat, es: seq<Event>)
    requires AllowedRun(NewPool(), max, es)
    ensures Run(NewPool(), max, es).created <= max
    ensures |Run(NewPool(), max, es).out| <= max
  {
    RunKeepsInv(NewPool(), max, es);
  }

  /** Consecutive calls of `getConnection`, with what the connector would answer on each. */
  function GetMany(p: PoolState, max: nat, oks: seq<bool>): (r: (PoolState, seq<Acquired>))
    ensures |r.1| == |oks|
    decreases |oks|
  {
    if oks == [] then (p, [])
    else
      var (q, a) := Acquire(p, max, oks[0]);
      var (q', rest) := GetMany(q, max, oks[1..]);
      (q', [a] + rest)
  }

  /** FIFO: while connections are idle, calls are served from the head of the queue in
      order, and no connection is created. */
  lemma {:induction false} GetsServeIdleInOrder(p: PoolState, max: nat, oks: seq<bool>)
    requires |oks| <= |p.idle|
    ensures GetMany(p, max, oks).0.created == p.created
    ensures GetMany(p, max, oks).0.idle == p.idle[|oks|..]
    ensures forall i :: 0 <= i < |oks| ==> GetMany(p, max, oks).1[i] == Handle(p.idle[i])
    decreases |oks|
  {
    if oks != [] {
      var (q, a) := Acquire(p, max, oks[0]);
      assert q.idle == p.idle[1..];
      GetsServeIdleInOrder(q, max, oks[1..]);
      var r := GetMany(q, max, oks[1..]);
      assert GetMany(p, max, oks) == (r.0, [a] + r.1);
      assert q.idle[|oks| - 1..] == p.idle[|oks|..];
    }
  }

  /** A returned connection is served after every connection that was idle before it,
      and before any new connection is opened. */
  lemma ReturnedServedAfterOlderIdle(p: PoolState, max: nat, c: Conn, oks: seq<bool>)
    requires |oks| == |p.idle| + 1
    ensures GetMany(Return(p, c), max, oks).1[|p.idle|] == Handle(c)
    ensures forall i :: 0 <= i < |p.idle| ==> GetMany(Return(p, c), max, oks).1[i] == Handle(p.idle[i])
    ensures GetMany(Return(p, c), max, oks).0.created == p.created
  {
    GetsServeIdleInOrder(Return(p, c), max, oks);
  }

  /** Saturation with a pool of one: the second caller waits, and once the first
      connection is returned the woken waiter receives that same connection. */
  lemma SaturatedPoolOfOne(ok2: bool)
    ensures Acquire(NewPool(), 1, true).1 == Handle(0)
    ensures var p1 := Acquire(NewPool(), 1, true).0;
            && Acquire(p1, 1, ok2).1 == WouldBlock
            && TakeHead(Return(p1, 0), 1).1 == 0
  {
  }

  /** A connector failure below the cap is not reported: the caller waits exactly as
      if the pool were saturated, and nothing is counted. */
  lemma ConnectorFailureWaits(p: PoolState, max: nat)
    requires p.idle == [] && p.created < max
    ensures Acquire(p, max, false) == (p, WouldBlock)
  {
  }

  /** The pool object. `dbConfig` is what `createConnection` would connect with. */
  class MySQLConnectionPool {
    const dbConfig: DatabaseConfig
    const maxConnections: nat
    var availableConnections: seq<Conn>
    var currentConnections: nat
    ghost var checkedOut: set<Conn>

    ghost function State(): PoolState
      reads this
    {
      PoolState(availableConnections, currentConnections, checkedOut)
    }

    ghost predicate Valid()
      reads this
    {
      Inv(State(), maxConnections)
    }

    /** `MySQLConnectionPool(config, max_conn = 10)`: an empty pool. */
    constructor (config: DatabaseConfig, maxConn: nat := 10)
      ensures Valid() && State() == NewPool()
      ensures dbConfig == config && maxConnections == maxConn
    {
      dbConfig := config;
      maxConnections := maxConn;
      availableConnections := [];
      currentConnections := 0;
      checkedOut := {};
    }

    /** `getConnection` up to the wait; `WouldBlock` means the caller now waits on the
        condition variable and continues with `ResumeWaiter`. */
    method GetConnection(connectorOk: bool) returns (r: Acquired)
      requires Valid()
      modifies this
      ensures Valid()
      ensures (State(), r) == Acquire(old(State()), maxConnections, connectorOk)
    {
      if availableConnections != [] {
        var conn := availableConnections[0];
        availableConnections := availableConnections[1..];
        checkedOut := checkedOut + {conn};
        return Handle(conn);
      }
      if currentConnections < maxConnections {
        if connectorOk {
          var conn := currentConnections;
          currentConnections := currentConnections + 1;
          checkedOut := checkedOut + {conn};
          return Handle(conn);
        }
      }
      return WouldBlock;
    }

    /** The end of `getConnection` for a waiter that was woken: the queue is non-empty,
        and the head is taken. */
    method ResumeWaiter() returns (conn: Conn)
      requires Valid() && availableConnections != []
      modifies this
      ensures Valid()
      ensures (State(), conn) == TakeHead(old(State()), maxConnections)
    {
      conn := availableConnections[0];
      availableConnections := availableConnections[1..];
      checkedOut := checkedOut + {conn};
    }

    /** `returnConnection`, run by the deleter of a handle. */
    method ReturnConnection(conn: Conn)
      requires Valid() && conn in checkedOut
      modifies this
      ensures Valid()
      ensures State() == Return(old(State()), conn)
    {
      availableConnections := availableConnections + [conn];
      checkedOut := checkedOut - {conn};
      ReturnKeepsInv(old(State()), maxConnections, conn);
    }

    /** The destructor: closes every idle connection, head first, and leaves the
        handed-out ones alone. `closed` lists the `mysql_close` calls in order. */
    method Close() returns (closed: seq<Conn>)
      requires Valid()
      modifies this
      ensures closed == old(availableConnections) && availableConnections == []
      ensures Distinct(closed)
      ensures forall c :: c in closed ==> c !in checkedOut
      ensures currentConnections == old(currentConnections) && checkedOut == old(checkedOut)
    {
      closed := [];
      while availableConnections != []
        invariant closed + availableConnections == old(availableConnections)
        invariant currentConnections == old(currentConnections) && checkedOut == old(checkedOut)
        decreases |availableConnections|
      {
        var conn := availableConnections[0];
        availableConnections := availableConnections[1..];
        closed := closed + [conn];
      }
    }
  }
}
