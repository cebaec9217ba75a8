/** The server and its clients as one system of interleaved steps. */
module Actor {
  import opened Basics
  import opened Channels
  import opened Commands
  import opened Clients
  import opened Server

  datatype Sys = Sys(srv: Srv, net: Net, clients: map<nat, Client>)

  /**
   A step of the server, up to its next operation on a shared channel, or one
   call of a client. The flags `g` and `h` are the runtime's choices to hand over
   a free slot, and `open` tells whether a read channel still has its receiver. A client joins as a
   datagram writer or as a stream.
   */
  datatype Label =
    | RecvRequest
    | RecvClosed
    | Timer
    | TryWrite
    | RefillStream(open: bool)
    | RefillDgram(open: bool)
    | Join(c: nat, dgrams: bool)
    | Leave(c: nat)
    | CallWrite(c: nat, k: nat, buf: Bytes, g: bool)
    | CallReady(c: nat, k: nat, g: bool, h: bool)
    | CallFlush(c: nat, k: nat, g: bool)
    | CallWriteChunk(c: nat, k: nat, dgram: Bytes, g: bool, h: bool)
    | CallStartSend(c: nat, dgram: Bytes)
    | CallClose(c: nat, k: nat, g: bool, h: bool)
  {
    predicate IsServer() {
      RecvRequest? || RecvClosed? || Timer? || TryWrite? || RefillStream? || RefillDgram?
    }

    predicate IsCall() {
      !IsServer() && !Join? && !Leave?
    }
  }

  /** A `QuicWriteDgram` when it is made, and a `QuicSendStream`. */
  const NEW_CLIENT: Client := Client(PollSender(true, Idle), PollSender(true, Idle), map[])
  const NEW_STREAM: Client := Client(PollSender(true, Idle), PollSender(false, Closed), map[])

  /** No client can send a request any more. */
  predicate Deserted(s: Sys) {
    s.net.cmd.holders == {} &&
    forall c :: c in s.clients ==> !s.clients[c].cmd.open
  }

  ghost predicate Enabled(s: Sys, l: Label) {
    match l
    case RecvRequest => s.srv.pc == AtSelect && s.net.cmd.queue != []
    case RecvClosed => s.srv.pc == AtSelect && s.net.cmd.queue == [] && Deserted(s)
    case Timer => s.srv.pc == AtSelect
    case TryWrite => s.srv.pc == AtDrain
    case RefillStream(_) => s.srv.pc == AtStreamRefill
    case RefillDgram(_) => s.srv.pc == AtDgramRefill
    case Join(c, _) => c !in s.clients
    case _ => l.c in s.clients
  }

  function ServerStep(s: Srv, net: Net, l: Label): Both
    requires l.IsServer()
    requires l.RecvRequest? ==> net.cmd.queue != []
  {
    match l
    case RecvRequest => OnRequest(s, net)
    case RecvClosed => Stop(s, net)
    case Timer => Both(OnTimer(s), net)
    case TryWrite => TryRecv(s, net)
    case RefillStream(open) => if open then Both(s.(pc := AtDgramRefill), net) else Stop(s, net)
    case RefillDgram(open) => if open then Both(SendPhase(s), net) else Stop(s, net)
  }

  function CallStep(c: Client, net: Net, l: Label): Call
    requires l.IsCall()
  {
    match l
    case CallWrite(c_, k, buf, g) => PollWrite(c, net, c_, k, buf, g)
    case CallReady(c_, k, g, h) => PollReady(c, net, c_, k, g, h)
    case CallFlush(c_, k, g) => PollFlush(c, net, c_, k, g)
    case CallWriteChunk(c_, k, d, g, h) => PollWriteChunk(c, net, c_, k, d, g, h)
    case CallStartSend(c_, d) => StartSend(c, net, c_, d)
    case CallClose(c_, k, g, h) => PollClose(c, net, c_, k, g, h)
  }

  /** What a call returns. */
  function Result(s: Sys, l: Label): CallOut
    requires l.IsCall() && l.c in s.clients
  {
    CallStep(s.clients[l.c], s.net, l).out
  }

  ghost function Step(s: Sys, l: Label): Sys
    requires Enabled(s, l)
  {
    if l.IsServer() then
      var b := ServerStep(s.srv, s.net, l);
      Sys(b.srv, b.net, s.clients)
    else if l.Join? then s.(clients := s.clients[l.c := if l.dgrams then NEW_CLIENT else NEW_STREAM])
    else if l.Leave? then
      Sys(s.srv,
          s.net.(cmd := s.net.cmd.(holders := s.net.cmd.holders - {l.c}),
                 wr := s.net.wr.(holders := s.net.wr.holders - {l.c})),
          s.clients - {l.c})
    else
      var x := CallStep(s.clients[l.c], s.net, l);
      Sys(s.srv, x.net, s.clients[l.c := x.client])
  }

  /** A step that can be taken and does not panic. */
  ghost predicate Fine(s: Sys, l: Label) {
    Enabled(s, l) && (l.IsCall() ==> Result(s, l) != Panicked)
  }

  ghost predicate ValidRun(s: Sys, ls: seq<Label>)
    decreases |ls|
  {
    ls == [] || (Fine(s, ls[0]) && ValidRun(Step(s, ls[0]), ls[1..]))
  }

  ghost function Run(s: Sys, ls: seq<Label>): Sys
    requires ValidRun(s, ls)
    decreases |ls|
  {
    if ls == [] then s else Run(Step(s, ls[0]), ls[1..])
  }

  function Init(cmdCap: nat, wrCap: nat): Sys {
    Sys(INIT, Net(Chan([], {}, cmdCap), Chan([], {}, wrCap), [], false, []), map[])
  }

  /** The states of all runs, for channels of any capacity. */
  ghost predicate Reachable(s: Sys) {
    exists cmdCap: nat, wrCap: nat, ls :: ValidRun(Init(cmdCap, wrCap), ls) && s == Run(Init(cmdCap, wrCap), ls)
  }

  lemma {:induction false} RunAppend(s: Sys, a: seq<Label>, b: seq<Label>)
    requires ValidRun(s, a) && ValidRun(Run(s, a), b)
    ensures ValidRun(s, a + b) && Run(s, a + b) == Run(Run(s, a), b)
    decreases |a|
  {
    hide Step, ServerStep, CallStep, Result, Enabled;
    if a == [] {
      assert a + b == b;
    } else {
      RunAppend(Step(s, a[0]), a[1..], b);
      assert (a + b)[0] == a[0] && (a + b)[1..] == a[1..] + b;
    }
  }

  lemma ReachableRun(s: Sys, ls: seq<Label>)
    requires Reachable(s) && ValidRun(s, ls)
    ensures Reachable(Run(s, ls))
  {
    var cmdCap: nat, wrCap: nat, pre :| ValidRun(Init(cmdCap, wrCap), pre) && s == Run(Init(cmdCap, wrCap), pre);
    RunAppend(Init(cmdCap, wrCap), pre, ls);
  }

  lemma ReachableStep(s: Sys, l: Label)
    requires Reachable(s) && Fine(s, l)
    ensures Reachable(Step(s, l))
  {
    assert ValidRun(Step(s, l), []);
    assert ValidRun(s, [l]) && Run(s, [l]) == Step(s, l) by {
      hide Step, Fine;
      assert [l][1..] == [];
    }
    ReachableRun(s, [l]);
  }

  /* The invariant. */

  /** All datagrams ever accepted, in the five places they can be in, oldest first. */
  function Pipeline(s: Srv, net: Net): seq<Bytes> {
    s.acked + s.sent + s.write + Opt(s.waiting) + s.lost + net.wr.queue
  }

  ghost predicate Credit(s: Srv) {
    s.cwnd + |Flat(s.sent)| == 10000
  }

  /** What the loop guarantees at each of its program points. */
  ghost predicate Shape(s: Srv) {
    && |s.write| <= MAX_SEND_DGRAMS
    && (s.waiting.Some? ==> |s.sent| + |s.write| >= MAX_SEND_DGRAMS)
    && (s.pc == AtSelect && s.write != [] ==> |s.write[0]| > s.cwnd)
    && (s.pc == AtDrain ==> s.waiting.None?)
    && (s.pc != Stopped ==> s.lost == [])
  }

  /** The places an unanswered request can be in. */
  function Held(s: Srv, net: Net): multiset<nat> {
    multiset(net.cmd.queue) + multiset(s.flush) + multiset(s.ready)
  }

  predicate Unanswered(net: Net, id: nat) {
    id < |net.tickets| && net.tickets[id].shot == Empty
  }

  /** `held` has every request without an answer once, and nothing else. */
  ghost predicate Balanced(held: multiset<nat>, net: Net) {
    forall id: nat :: held[id] == if Unanswered(net, id) then 1 else 0
  }

  predicate AllOfKind(ids: seq<nat>, net: Net, q: Request) {
    forall id :: id in ids ==> id < |net.tickets| && net.tickets[id].req == q
  }

  /** Every request without an answer is in exactly one place, once. */
  ghost predicate Conserved(s: Srv, net: Net) {
    Balanced(Held(s, net), net) && AllOfKind(s.flush, net, Flush) && AllOfKind(s.ready, net, Ready)
  }

  /** Answers are of the right kind, and flush answers are given late enough. */
  ghost predicate Honest(t: Ticket, left: nat) {
    t.shot.Answer().Some? ==> Answers(t.shot.Answer().value, t.req) && (t.req.Flush? ==> t.mark <= left)
  }

  /** A request that is not waiting has got an answer. */
  predicate Kept(t: Ticket) {
    t.shot.Empty? || t.shot.Answer().Some?
  }

  /** The running server throws no request away. */
  ghost predicate AllKept(s: Srv, net: Net) {
    s.pc != Stopped ==> forall id | 0 <= id < |net.tickets| :: Kept(net.tickets[id])
  }

  /** The number of datagrams that have left the write channel and the waiting slot. */
  function Left(s: Srv): nat {
    |s.acked| + |s.sent| + |s.write|
  }

  ghost predicate AllHonest(s: Srv, net: Net) {
    forall id | 0 <= id < |net.tickets| ::
      Honest(net.tickets[id], Left(s)) && net.tickets[id].mark <= |net.accepted|
  }

  /** A pending command has its request, or a ticket of its own. */
  predicate Sound(cmd: Command, net: Net, me: nat, key: nat) {
    match cmd
    case State0(msg) => msg.Some?
    case State1(id) => id < |net.tickets| && net.tickets[id].owner == me && net.tickets[id].key == key
    case Terminated => true
  }

  ghost predicate SoundClient(c: Client, net: Net, me: nat) {
    && (c.cmd.permit.Reserved? <==> me in net.cmd.holders)
    && (c.wr.permit.Reserved? <==> me in net.wr.holders)
    && (forall k :: k in c.pending ==> Sound(c.pending[k], net, me, k))
  }

  ghost predicate SoundClients(clients: map<nat, Client>, net: Net) {
    && net.cmd.holders <= clients.Keys
    && net.wr.holders <= clients.Keys
    && (forall c :: c in clients ==> SoundClient(clients[c], net, c))
  }

  ghost predicate Inv(s: Sys) {
    && Pipeline(s.srv, s.net) == s.net.accepted
    && Credit(s.srv)
    && Shape(s.srv)
    && (s.net.gone <==> s.srv.pc == Stopped)
    && s.net.cmd.Within() && s.net.wr.Within()
    && Conserved(s.srv, s.net)
    && AllHonest(s.srv, s.net)
    && AllKept(s.srv, s.net)
    && SoundClients(s.clients, s.net)
  }
}
