/**
 The event loop of the TCP receiver: edge-triggered events from the kernel, and
 a table from tokens to connections. The kernel and the peers act between any two
 system calls of the loop.
 */
module ConnTable {
  /** A connection's receive side: bytes that can be read, and whether the peer has closed. */
  datatype Sock = Sock(unread: nat, eof: bool) {
    predicate Readable() {
      unread > 0 || eof
    }
  }

  /**
   The kernel. Connections are numbered as they come in. `edges` are the
   registered connections with an event that has not been delivered, and
   `serverEdge` says the same of the listener.
   */
  datatype Kernel = Kernel(born: nat, backlog: seq<nat>, socks: map<nat, Sock>, regs: map<nat, nat>,
                           edges: set<nat>, serverEdge: bool)

  /** An event in a batch. `conn` is history: the connection the event was raised for. */
  datatype Event = ServerEvent | ConnEvent(token: nat, conn: nat)

  datatype Pc = AtPoll | InBatch | Accepting | Reading(token: nat) | Ended

  /** The loop's variables: its table, the next token, and the events not handled yet. */
  datatype Loop = Loop(pc: Pc, table: map<nat, nat>, next: nat, batch: seq<Event>)

  datatype State = State(k: Kernel, p: Loop)

  const SERVER: nat := 0
  const BATCH_CAPACITY: nat := 128
  const BUFFER_SIZE: nat := 512

  const INIT: State := State(Kernel(0, [], map[], map[], {}, false), Loop(AtPoll, map[], SERVER + 1, []))

  /**
   `again` is the kernel's choice: it must raise an edge when a source gets ready,
   and it may raise one when more comes in for a source that is ready already.
   */
  datatype Label =
    | Connect(again: bool)
    | Data(conn: nat, n: nat, again: bool)
    | PeerClose(conn: nat, again: bool)
    | Poll(events: seq<Event>)
    | NextEvent
    | BatchDone
    | Accept
    | AcceptBlocks
    | Read(n: nat)
    | ReadEnd
    | ReadBlocks
    | Fails
  {
    predicate IsEnv() {
      Connect? || Data? || PeerClose?
    }
  }

  /** An event that a poll can return. It may be spurious, but it is for a registered source. */
  predicate Possible(k: Kernel, e: Event) {
    e.ConnEvent? ==> e.conn in k.regs && k.regs[e.conn] == e.token
  }

  /** An event that the kernel has for the poll, which then does not block. */
  predicate Pending(k: Kernel, e: Event) {
    match e
    case ServerEvent => k.serverEdge
    case ConnEvent(token, conn) => conn in k.edges && conn in k.regs && k.regs[conn] == token
  }

  /** The connection that the loop is reading from. */
  predicate Current(s: State) {
    s.p.pc.Reading? && s.p.pc.token in s.p.table && s.p.table[s.p.pc.token] in s.k.socks
  }

  function CurrentSock(s: State): Sock
    requires Current(s)
  {
    s.k.socks[s.p.table[s.p.pc.token]]
  }

  predicate Enabled(s: State, l: Label) {
    match l
    case Connect(_) => true
    case Data(conn, n, _) => conn in s.k.socks && !s.k.socks[conn].eof && n > 0
    case PeerClose(conn, _) => conn in s.k.socks
    case Poll(events) => s.p.pc == AtPoll && |events| <= BATCH_CAPACITY && forall e | e in events :: Possible(s.k, e)
    case NextEvent => s.p.pc == InBatch && s.p.batch != []
    case BatchDone => s.p.pc == InBatch && s.p.batch == []
    case Accept => s.p.pc == Accepting && s.k.backlog != [] && s.k.backlog[0] in s.k.socks
    case AcceptBlocks => s.p.pc == Accepting && s.k.backlog == []
    case Read(n) => Current(s) && 0 < n <= BUFFER_SIZE && n <= CurrentSock(s).unread
    case ReadEnd => Current(s) && CurrentSock(s) == Sock(0, true)
    case ReadBlocks => Current(s) && CurrentSock(s) == Sock(0, false)
    case Fails => s.p.pc.Accepting? || s.p.pc.Reading? || s.p.pc.AtPoll?
  }

  /** More comes in for a source. */
  function Arrival(k: Kernel, conn: nat, sock: Sock, again: bool): Kernel
    requires conn in k.socks
  {
    var k1 := k.(socks := k.socks[conn := sock]);
    if again || !k.socks[conn].Readable() then Edge(k1, conn) else k1
  }

  /** A source gets readable: an edge, if it is registered. */
  function Edge(k: Kernel, conn: nat): Kernel {
    if conn in k.regs then k.(edges := k.edges + {conn}) else k
  }

  /** The delivered events are taken off the kernel's list. */
  function Deliver(k: Kernel, events: seq<Event>): Kernel {
    k.(serverEdge := k.serverEdge && ServerEvent !in events,
       edges := set c | c in k.edges && !(c in k.regs && ConnEvent(k.regs[c], c) in events))
  }

  function Step(s: State, l: Label): State
    requires Enabled(s, l)
  {
    var k, p := s.k, s.p;
    match l
    case Connect(again) =>
      s.(k := k.(born := k.born + 1, backlog := k.backlog + [k.born],
                 socks := k.socks[k.born := Sock(0, false)],
                 serverEdge := k.serverEdge || again || k.backlog == []))
    case Data(conn, n, again) =>
      s.(k := Arrival(k, conn, k.socks[conn].(unread := k.socks[conn].unread + n), again))
    case PeerClose(conn, again) =>
      s.(k := Arrival(k, conn, k.socks[conn].(eof := true), again))
    case Poll(events) =>
      State(Deliver(k, events), p.(pc := InBatch, batch := events))
    case NextEvent =>
      var e, rest := p.batch[0], p.batch[1..];
      var pc := match e
        case ServerEvent => Accepting
        case ConnEvent(token, _) => if token in p.table then Reading(token) else InBatch;
      s.(p := p.(pc := pc, batch := rest))
    case BatchDone => s.(p := p.(pc := AtPoll))
    case Accept =>
      var conn, token := k.backlog[0], p.next;
      var k1 := k.(backlog := k.backlog[1..], regs := k.regs[conn := token]);
      State(if k.socks[conn].Readable() then Edge(k1, conn) else k1,
            p.(table := p.table[token := conn], next := token + 1))
    case AcceptBlocks => s.(p := p.(pc := InBatch))
    case Read(n) =>
      var conn := p.table[p.pc.token];
      s.(k := k.(socks := k.socks[conn := k.socks[conn].(unread := k.socks[conn].unread - n)]))
    case ReadEnd =>
      var conn := p.table[p.pc.token];
      State(k.(socks := k.socks - {conn}, regs := k.regs - {conn}, edges := k.edges - {conn}),
            p.(pc := InBatch, table := p.table - {p.pc.token}))
    case ReadBlocks => s.(p := p.(pc := InBatch))
    case Fails => s.(p := p.(pc := Ended))
  }

  ghost predicate ValidRun(s: State, ls: seq<Label>)
    decreases |ls|
  {
    ls == [] || (Enabled(s, ls[0]) && ValidRun(Step(s, ls[0]), ls[1..]))
  }

  ghost function Run(s: State, ls: seq<Label>): State
    requires ValidRun(s, ls)
    decreases |ls|
  {
    if ls == [] then s else Run(Step(s, ls[0]), ls[1..])
  }

  ghost predicate Reachable(s: State) {
    exists ls :: ValidRun(INIT, ls) && s == Run(INIT, ls)
  }

  lemma {:induction false} RunAppend(s: State, a: seq<Label>, b: seq<Label>)
    requires ValidRun(s, a) && ValidRun(Run(s, a), b)
    ensures ValidRun(s, a + b) && Run(s, a + b) == Run(Run(s, a), b)
    decreases |a|
  {
    hide Step, Enabled;
    if a == [] {
      assert a + b == b;
    } else {
      RunAppend(Step(s, a[0]), a[1..], b);
      assert (a + b)[0] == a[0] && (a + b)[1..] == a[1..] + b;
    }
  }

  /* The invariant. */

  /** Table and registry are each other's inverse, and tokens come from the counter. */
  ghost predicate Agree(k: Kernel, p: Loop) {
    && (forall t | t in p.table :: 1 <= t < p.next && p.table[t] in k.regs && k.regs[p.table[t]] == t)
    && (forall c | c in k.regs :: k.regs[c] in p.table && p.table[k.regs[c]] == c)
    && p.next >= 1
  }

  /** The kernel's own lists fit together. */
  ghost predicate Sane(k: Kernel) {
    && (forall c | c in k.regs :: c in k.socks)
    && (forall c | c in k.socks :: c < k.born)
    && (forall i | 0 <= i < |k.backlog| :: k.backlog[i] in k.socks && k.backlog[i] !in k.regs)
    && (forall i, j | 0 <= i < j < |k.backlog| :: k.backlog[i] != k.backlog[j])
    && (forall c | c in k.edges :: c in k.regs)
    && (forall c | c in k.socks :: c in k.backlog || c in k.regs)
  }

  /** An event of the batch is for the connection it was raised for, or for none. */
  ghost predicate NotMistaken(p: Loop, e: Event) {
    e.ConnEvent? ==> 1 <= e.token < p.next && (e.token in p.table ==> p.table[e.token] == e.conn)
  }

  ghost predicate BatchRight(p: Loop) {
    && (forall i | 0 <= i < |p.batch| :: NotMistaken(p, p.batch[i]))
    && (p.pc == AtPoll ==> p.batch == [])
    && (p.pc.Reading? ==> p.pc.token in p.table)
  }

  /** A registered source that is readable has not been forgotten. */
  ghost predicate Remembered(s: State, c: nat)
    requires c in s.k.regs
  {
    || c in s.k.edges
    || ConnEvent(s.k.regs[c], c) in s.p.batch
    || s.p.pc == Reading(s.k.regs[c])
  }

  ghost predicate NothingLost(s: State) {
    s.p.pc != Ended ==>
      && (forall c | c in s.k.regs && c in s.k.socks :: s.k.socks[c].Readable() ==> Remembered(s, c))
      && (s.k.backlog != [] ==> s.k.serverEdge || ServerEvent in s.p.batch || s.p.pc == Accepting)
  }

  ghost predicate Inv(s: State) {
    Agree(s.k, s.p) && Sane(s.k) && BatchRight(s.p) && NothingLost(s)
  }

  lemma StepAgree(s: State, l: Label)
    requires Inv(s) && Enabled(s, l)
    ensures Agree(Step(s, l).k, Step(s, l).p)
  {
    hide NothingLost, Deliver;
    if l.Poll? {
      assert Deliver(s.k, l.events).regs == s.k.regs by {
        DeliverKeeps(s.k, l.events);
      }
    }
  }

  lemma DeliverKeeps(k: Kernel, events: seq<Event>)
    ensures var k' := Deliver(k, events);
            k' == k.(serverEdge := k'.serverEdge, edges := k'.edges) && k'.edges <= k.edges
  {
  }

  lemma StepSane(s: State, l: Label)
    requires Inv(s) && Enabled(s, l)
    ensures Sane(Step(s, l).k)
  {
    if l.IsEnv() {
      EnvSane(s, l);
      hide *;
    } else {
      LoopSane(s, l);
      hide *;
    }
  }

  lemma EnvSane(s: State, l: Label)
    requires Sane(s.k) && Enabled(s, l) && l.IsEnv()
    ensures Sane(Step(s, l).k)
  {
  }

  lemma LoopSane(s: State, l: Label)
    requires Inv(s) && Enabled(s, l) && !l.IsEnv()
    ensures Sane(Step(s, l).k)
  {
    match l
    case Poll(events) => DeliverKeeps(s.k, events); hide Deliver, NothingLost, BatchRight, Agree;
    case Accept => AcceptSane(s); hide Step, Sane;
    case ReadEnd => EndSane(s); hide Step, Sane;
    case _ => hide Deliver, NothingLost, BatchRight, Agree;
  }

  lemma AcceptSane(s: State)
    requires Sane(s.k) && Enabled(s, Accept)
    ensures Sane(Step(s, Accept).k)
  {
    var conn := s.k.backlog[0];
    var k1 := s.k.(backlog := s.k.backlog[1..], regs := s.k.regs[conn := s.p.next]);
    MovedSane(s.k, k1, conn, s.p.next);
    EdgeSane(k1, conn);
    hide Sane, Edge;
  }

  lemma MovedSane(k: Kernel, k1: Kernel, conn: nat, token: nat)
    requires Sane(k) && k.backlog != [] && conn == k.backlog[0] && conn in k.socks
    requires k1 == k.(backlog := k.backlog[1..], regs := k.regs[conn := token])
    ensures Sane(k1)
  {
    assert k.backlog == [conn] + k1.backlog;
    forall i | 0 <= i < |k1.backlog|
      ensures k1.backlog[i] in k.socks && k1.backlog[i] !in k1.regs
    {
      assert k1.backlog[i] == k.backlog[i + 1] != k.backlog[0];
    }
  }

  lemma EdgeSane(k: Kernel, conn: nat)
    requires Sane(k)
    ensures Sane(Edge(k, conn))
  {
  }

  lemma EndSane(s: State)
    requires Sane(s.k) && Agree(s.k, s.p) && Enabled(s, ReadEnd)
    ensures Sane(Step(s, ReadEnd).k)
  {
    assert s.p.table[s.p.pc.token] in s.k.regs;
  }

  lemma StepBatch(s: State, l: Label)
    requires Inv(s) && Enabled(s, l)
    ensures BatchRight(Step(s, l).p)
  {
    hide NothingLost, Sane, Deliver;
    if l.Poll? {
      forall i | 0 <= i < |l.events|
        ensures NotMistaken(s.p, l.events[i])
      {
        assert Possible(s.k, l.events[i]);
      }
    } else if l.NextEvent? {
      forall i | 0 <= i < |s.p.batch[1..]|
        ensures NotMistaken(s.p, s.p.batch[1..][i])
      {
        assert NotMistaken(s.p, s.p.batch[i + 1]);
      }
    } else {
      var p' := Step(s, l).p;
      forall i | 0 <= i < |p'.batch|
        ensures NotMistaken(p', p'.batch[i])
      {
        assert NotMistaken(s.p, s.p.batch[i]);
      }
    }
  }

  lemma StepLost(s: State, l: Label)
    requires Inv(s) && Enabled(s, l)
    ensures NothingLost(Step(s, l))
  {
    if l.IsEnv() {
      EnvLost(s, l);
      hide *;
    } else {
      LoopLost(s, l);
      hide *;
    }
  }

  lemma EnvLost(s: State, l: Label)
    requires Inv(s) && Enabled(s, l) && l.IsEnv()
    ensures NothingLost(Step(s, l))
  {
    var s' := Step(s, l);
    assert s'.p == s.p && s'.k.regs == s.k.regs && s.k.edges <= s'.k.edges;
    forall c | c in s'.k.regs && c in s'.k.socks
      ensures s.p.pc != Ended && s'.k.socks[c].Readable() ==> Remembered(s', c)
    {
      assert c in s.k.socks;
      if s.k.socks[c].Readable() && s.p.pc != Ended {
        assert Remembered(s, c);
      }
    }
  }

  lemma LoopLost(s: State, l: Label)
    requires Inv(s) && Enabled(s, l) && !l.IsEnv()
    ensures NothingLost(Step(s, l))
  {
    var s' := Step(s, l);
    if s'.p.pc != Ended {
      forall c | c in s'.k.regs && c in s'.k.socks && s'.k.socks[c].Readable()
        ensures Remembered(s', c)
      {
        LoopRemembers(s, l, c);
      }
      ServerRemembered(s, l);
    }
  }

  /** Handling an event drains its source, so no other source's event is needed for it. */
  lemma LoopRemembers(s: State, l: Label, c: nat)
    requires Inv(s) && Enabled(s, l) && !l.IsEnv() && !l.Fails? && s.p.pc != Ended
    requires c in Step(s, l).k.regs && c in Step(s, l).k.socks && Step(s, l).k.socks[c].Readable()
    ensures Remembered(Step(s, l), c)
  {
    var s' := Step(s, l);
    if l.Accept? && c == s.k.backlog[0] {
      assert c in s'.k.edges;
    } else {
      assert c in s.k.regs && c in s.k.socks && s.k.socks[c].Readable();
      assert Remembered(s, c);
      match l
      case Poll(events) =>
      case NextEvent =>
        var e := s.p.batch[0];
        assert s.p.batch == [e] + s.p.batch[1..];
      case _ =>
    }
  }

  lemma ServerRemembered(s: State, l: Label)
    requires Inv(s) && Enabled(s, l) && !l.IsEnv() && !l.Fails? && s.p.pc != Ended
    ensures var s' := Step(s, l);
            s'.k.backlog != [] ==> s'.k.serverEdge || ServerEvent in s'.p.batch || s'.p.pc == Accepting
  {
    if l.NextEvent? {
      assert s.p.batch == [s.p.batch[0]] + s.p.batch[1..];
    }
    hide Sane, Agree, Edge;
  }

  lemma StepInv(s: State, l: Label)
    requires Inv(s) && Enabled(s, l)
    ensures Inv(Step(s, l))
  {
    StepAgree(s, l);
    StepSane(s, l);
    StepBatch(s, l);
    StepLost(s, l);
    hide Step, Enabled, Agree, Sane, BatchRight, NothingLost;
  }

  lemma {:induction false} RunInv(s: State, ls: seq<Label>)
    requires Inv(s) && ValidRun(s, ls)
    ensures Inv(Run(s, ls))
    decreases |ls|
  {
    hide Inv, Step, Enabled;
    if ls != [] {
      StepInv(s, ls[0]);
      RunInv(Step(s, ls[0]), ls[1..]);
    }
  }

  lemma ReachableInv(s: State)
    requires Reachable(s)
    ensures Inv(s)
  {
    var ls :| ValidRun(INIT, ls) && s == Run(INIT, ls);
    RunInv(INIT, ls);
  }

  /* What follows. */

  /**
   No lost readiness: whenever the loop is about to poll, every registered
   connection with unread bytes or a closed peer has an event pending, and so has
   the listener if connections wait. Poll cannot block while there is work.
   */
  lemma NoLostReadiness(s: State)
    requires Reachable(s) && s.p.pc == AtPoll
    ensures forall c :: c in s.k.regs && c in s.k.socks && s.k.socks[c].Readable() ==>
              Pending(s.k, ConnEvent(s.k.regs[c], c))
    ensures s.k.backlog != [] ==> Pending(s.k, ServerEvent)
  {
    ReachableInv(s);
    forall c | c in s.k.regs && c in s.k.socks && s.k.socks[c].Readable()
      ensures Pending(s.k, ConnEvent(s.k.regs[c], c))
    {
      assert Remembered(s, c);
    }
  }

  /** Edges, not levels: what a poll delivers it does not deliver again, and nothing else is lost. */
  lemma EdgeTriggered(s: State, events: seq<Event>, c: nat)
    requires Reachable(s) && Enabled(s, Poll(events)) && c in s.k.regs
    ensures var k' := Step(s, Poll(events)).k;
            && (c in k'.edges <==> c in s.k.edges && ConnEvent(s.k.regs[c], c) !in events)
            && (k'.serverEdge <==> s.k.serverEdge && ServerEvent !in events)
            && k'.regs == s.k.regs && k'.socks == s.k.socks && k'.backlog == s.k.backlog
  {
    ReachableInv(s);
    hide NothingLost, BatchRight, Reachable;
  }

  /** A read takes between 1 and 512 of the bytes that are there, and a batch has at most 128 events. */
  lemma CallSizes(s: State, n: nat, events: seq<Event>)
    requires Current(s)
    ensures Enabled(s, Read(n)) <==> 1 <= n <= 512 && n <= CurrentSock(s).unread
    ensures Enabled(s, Read(n)) ==>
              CurrentSock(Step(s, Read(n))) == CurrentSock(s).(unread := CurrentSock(s).unread - n)
    ensures Enabled(s.(p := s.p.(pc := AtPoll)), Poll(events)) <==>
              |events| <= 128 && forall e | e in events :: Possible(s.k, e)
  {
  }

  /** In the middle of a batch the events still to come are counted in. */
  lemma NoLostReadinessMidBatch(s: State, c: nat)
    requires Reachable(s) && s.p.pc != Ended && c in s.k.regs
    ensures c in s.k.socks
    ensures s.k.socks[c].Readable() ==>
              c in s.k.edges || ConnEvent(s.k.regs[c], c) in s.p.batch || s.p.pc == Reading(s.k.regs[c])
  {
    ReachableInv(s);
    if s.k.socks[c].Readable() {
      assert Remembered(s, c);
    }
  }

  /**
   The keys of the table are exactly the registered tokens; they are at least 1 and
   below the counter; and two connections never share one.
   */
  lemma TableIsRegistry(s: State)
    requires Reachable(s)
    ensures s.p.table.Keys == s.k.regs.Values
    ensures forall t :: t in s.p.table ==> 0 < t < s.p.next
    ensures forall c, d | c in s.k.regs && d in s.k.regs :: s.k.regs[c] == s.k.regs[d] ==> c == d
  {
    ReachableInv(s);
    forall t
      ensures t in s.p.table.Keys <==> t in s.k.regs.Values
    {
      if t in s.p.table {
        assert s.k.regs[s.p.table[t]] == t;
      }
    }
  }

  /** Every open connection either waits to be accepted or is in the table, under one token. */
  lemma NoConnectionLost(s: State, c: nat)
    requires Reachable(s) && c in s.k.socks
    ensures c in s.k.backlog <==> c !in s.k.regs
    ensures c in s.k.regs ==> s.k.regs[c] in s.p.table && s.p.table[s.k.regs[c]] == c
  {
    ReachableInv(s);
    hide NothingLost, BatchRight;
  }

  /** An accepted connection gets a token that no entry of the table has. */
  lemma InsertIsFresh(s: State)
    requires Reachable(s) && Enabled(s, Accept)
    ensures s.p.next !in s.p.table
    ensures Step(s, Accept).p.table == s.p.table[s.p.next := s.k.backlog[0]]
  {
    ReachableInv(s);
  }

  /** Over a run a token that was given out never names another connection. */
  ghost predicate TokensLater(s: State, s': State) {
    && s.p.next <= s'.p.next
    && (forall t | t in s'.p.table && t < s.p.next :: t in s.p.table && s.p.table[t] == s'.p.table[t])
  }

  lemma {:induction false} TokensNeverReused(s: State, ls: seq<Label>)
    requires Inv(s) && ValidRun(s, ls)
    ensures TokensLater(s, Run(s, ls))
    decreases |ls|
  {
    if ls != [] {
      var s1 := Step(s, ls[0]);
      assert TokensLater(s, s1) by {
        hide Deliver, Edge;
      }
      StepInv(s, ls[0]);
      hide Step, Enabled, Inv;
      TokensNeverReused(s1, ls[1..]);
    }
  }

  /**
   Stale events do no harm: when the loop takes an event out of the batch and
   starts to read, the connection it reads from is the one the event was raised for.
   */
  lemma StaleEventsHitNobody(s: State)
    requires Reachable(s) && Enabled(s, NextEvent) && Step(s, NextEvent).p.pc.Reading?
    ensures s.p.batch[0].ConnEvent? && Current(Step(s, NextEvent))
    ensures s.p.table[Step(s, NextEvent).p.pc.token] == s.p.batch[0].conn
  {
    ReachableInv(s);
    assert NotMistaken(s.p, s.p.batch[0]);
  }

  /** A connection leaves the table only after its last byte was read and its peer has closed. */
  lemma RemovedOnlyWhenDrained(s: State, l: Label, t: nat)
    requires Reachable(s) && Enabled(s, l) && t in s.p.table && t !in Step(s, l).p.table
    ensures l == ReadEnd && s.p.table[t] in s.k.socks && s.k.socks[s.p.table[t]] == Sock(0, true)
    ensures s.p.table[t] !in Step(s, l).k.regs
  {
    ReachableInv(s);
    hide Deliver, Edge;
  }
}
