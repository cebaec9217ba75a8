/** The invariant holds in every state of every run. */
module Invariant {
  import opened Basics
  import opened Channels
  import opened Clients
  import opened Server
  import opened Actor
  import opened CallEffects

  /* The pipeline: no server step loses, repeats or reorders a datagram. */

  lemma TakeWaitingPipeline(s: Srv, net: Net)
    ensures Pipeline(TakeWaiting(s), net) == Pipeline(s, net)
  {
    var s' := TakeWaiting(s);
    assert s'.write + Opt(s'.waiting) == s.write + Opt(s.waiting);
    hide TakeWaiting;
    var a, z := s.acked + s.sent, s.lost + net.wr.queue;
    assert Pipeline(s, net) == a + (s.write + Opt(s.waiting)) + z;
    assert Pipeline(s', net) == a + (s'.write + Opt(s'.waiting)) + z;
  }

  lemma RequestPipeline(s: Srv, net: Net)
    requires net.cmd.queue != []
    ensures Pipeline(OnRequest(s, net).srv, OnRequest(s, net).net) == Pipeline(s, net)
  {
    var id := net.cmd.queue[0];
    TakeWaitingPipeline(s, net);
    TakeWaitingPipeline(s.(ready := s.ready + [id]), net);
    TakeWaitingPipeline(s.(flush := s.flush + [id]), net);
    hide TakeWaiting;
  }

  lemma TimerPipeline(s: Srv, net: Net)
    ensures Pipeline(OnTimer(s), net) == Pipeline(s, net)
  {
    var s1 := if s.sent == [] then s else
              s.(sent := s.sent[1..], cwnd := s.cwnd + |s.sent[0]|, acked := s.acked + [s.sent[0]]);
    assert s1.acked + s1.sent == s.acked + s.sent;
    TakeWaitingPipeline(s1, net);
    hide TakeWaiting;
  }

  lemma TryRecvPipeline(s: Srv, net: Net)
    requires s.waiting.None? && s.lost == []
    ensures Pipeline(TryRecv(s, net).srv, TryRecv(s, net).net) == Pipeline(s, net)
  {
    if net.wr.queue != [] {
      var front, buf, rest := s.acked + s.sent + s.write, net.wr.queue[0], net.wr.queue[1..];
      assert Pipeline(s, net) == front + ([buf] + rest);
      assert (front + [buf]) + rest == front + ([buf] + rest);
      assert s.acked + s.sent + (s.write + [buf]) == front + [buf];
    }
  }

  lemma SendPipeline(s: Srv, net: Net)
    ensures Pipeline(SendPhase(s), net) == Pipeline(s, net)
  {
    var n := Fitting(s.write, s.cwnd);
    assert s.sent + s.write == (s.sent + s.write[..n]) + s.write[n..];
    assert s.acked + (s.sent + s.write[..n]) + s.write[n..] == s.acked + s.sent + s.write;
  }

  lemma PipelineStep(s: Sys, l: Label)
    requires Enabled(s, l) && l.IsServer()
    requires Shape(s.srv)
    ensures Pipeline(Step(s, l).srv, Step(s, l).net) == Pipeline(s.srv, s.net)
  {
    match l
    case RecvRequest => RequestPipeline(s.srv, s.net);
    case Timer => TimerPipeline(s.srv, s.net);
    case TryWrite => TryRecvPipeline(s.srv, s.net);
    case RefillDgram(open) => SendPipeline(s.srv, s.net);
    case _ =>
  }

  /* Credit and the shape of the server's state. */

  lemma SendPhaseShape(s: Srv)
    requires Credit(s) && |s.write| <= MAX_SEND_DGRAMS && s.lost == []
    requires s.waiting.Some? ==> |s.sent| + |s.write| >= MAX_SEND_DGRAMS
    ensures Credit(SendPhase(s)) && Shape(SendPhase(s))
  {
    var n := Fitting(s.write, s.cwnd);
    FittingIsExact(s.write, s.cwnd);
    FlatAppend(s.sent, s.write[..n]);
    if n < |s.write| {
      assert s.write[n..][0] == s.write[n];
    }
  }

  lemma TimerShape(s: Srv)
    requires Shape(s) && Credit(s) && s.pc == AtSelect
    ensures Shape(OnTimer(s)) && Credit(OnTimer(s))
  {
    if s.sent != [] {
      assert s.sent == [s.sent[0]] + s.sent[1..];
    }
  }

  lemma TakeWaitingShape(s: Srv)
    requires Shape(s) && Credit(s) && s.pc == AtSelect
    ensures Shape(TakeWaiting(s)) && Credit(TakeWaiting(s))
  {
  }

  lemma RequestShape(s: Srv, net: Net)
    requires Shape(s) && Credit(s) && s.pc == AtSelect && net.cmd.queue != []
    ensures Shape(OnRequest(s, net).srv) && Credit(OnRequest(s, net).srv)
  {
    var id := net.cmd.queue[0];
    TakeWaitingShape(s);
    TakeWaitingShape(s.(ready := s.ready + [id]));
    TakeWaitingShape(s.(flush := s.flush + [id]));
    hide TakeWaiting, Net.SetShot;
  }

  lemma ShapeStep(s: Sys, l: Label)
    requires Enabled(s, l) && l.IsServer()
    requires Shape(s.srv) && Credit(s.srv)
    ensures Shape(Step(s, l).srv) && Credit(Step(s, l).srv)
  {
    match l
    case RecvRequest => RequestShape(s.srv, s.net); hide OnRequest, Shape, Credit;
    case Timer => TimerShape(s.srv); hide OnTimer, Shape, Credit;
    case TryWrite =>
    case RefillDgram(open) =>
      if open {
        SendPhaseShape(s.srv);
        hide SendPhase, Shape, Credit;
      }
    case _ =>
  }

  /* Requests and answers. */

  /** Answering a list that is part of `held` takes exactly that list out of it. */
  lemma FillBalanced(held: multiset<nat>, ids: seq<nat>, rest: multiset<nat>, net: Net, r: Response)
    requires Balanced(held, net) && held == multiset(ids) + rest
    ensures Balanced(rest, net.FillAll(ids, r))
  {
    forall id: nat
      ensures rest[id] == if Unanswered(net.FillAll(ids, r), id) then 1 else 0
    {
      assert held[id] == multiset(ids)[id] + rest[id];
      assert id in ids <==> multiset(ids)[id] > 0;
    }
  }

  /** A change of the lists and of no ticket. */
  lemma SameTickets(held: multiset<nat>, net: Net, net': Net)
    requires Balanced(held, net) && net'.tickets == net.tickets
    ensures Balanced(held, net')
  {
    forall id: nat
      ensures held[id] == if Unanswered(net', id) then 1 else 0
    {
      assert Unanswered(net', id) == Unanswered(net, id);
    }
  }

  /** The request branch, without what it does to the datagrams. */
  lemma RequestParts(s: Srv, net: Net, id: nat)
    requires net.cmd.queue != [] && id == net.cmd.queue[0] && id < |net.tickets|
    ensures var b, q := OnRequest(s, net), net.tickets[id].req;
            && b.net.cmd == net.cmd.(queue := net.cmd.queue[1..])
            && b.net == net.(cmd := b.net.cmd, tickets := b.net.tickets)
            && b.net.tickets == (if q.Write? then net.tickets[id := net.tickets[id].(shot := Filled(Written(|q.buf|)))]
                                 else net.tickets)
            && b.srv.flush == s.flush + (if q.Flush? then [id] else [])
            && b.srv.ready == s.ready + (if q.Ready? then [id] else [])
  {
  }

  lemma HeadIsHeld(s: Srv, net: Net, id: nat, others: multiset<nat>)
    requires Balanced(Held(s, net), net) && net.cmd.queue != [] && id == net.cmd.queue[0]
    requires others == multiset(net.cmd.queue[1..]) + multiset(s.flush) + multiset(s.ready)
    ensures Held(s, net) == multiset([id]) + others && Unanswered(net, id)
  {
    assert net.cmd.queue == [id] + net.cmd.queue[1..];
    assert Held(s, net)[id] >= multiset([id])[id] == 1;
  }

  /** The head of the queue moves to the end of a notifier list, or is answered. */
  lemma RequestBalanced(s: Srv, net: Net)
    requires Balanced(Held(s, net), net) && net.cmd.queue != []
    ensures Balanced(Held(OnRequest(s, net).srv, OnRequest(s, net).net), OnRequest(s, net).net)
  {
    var id, b := net.cmd.queue[0], OnRequest(s, net);
    var others := multiset(net.cmd.queue[1..]) + multiset(s.flush) + multiset(s.ready);
    HeadIsHeld(s, net, id, others);
    RequestParts(s, net, id);
    hide OnRequest;
    if net.tickets[id].req.Write? {
      var net1 := net.FillAll([id], Written(|net.tickets[id].req.buf|));
      assert Held(b.srv, b.net) == others && b.net.tickets == net1.tickets;
      FillBalanced(Held(s, net), [id], others, net, Written(|net.tickets[id].req.buf|));
      SameTickets(others, net1, b.net);
    } else {
      assert Held(b.srv, b.net) == multiset([id]) + others;
      SameTickets(Held(s, net), net, b.net);
    }
  }

  lemma TryRecvBalanced(s: Srv, net: Net)
    requires Balanced(Held(s, net), net)
    ensures Balanced(Held(TryRecv(s, net).srv, TryRecv(s, net).net), TryRecv(s, net).net)
  {
    var b := TryRecv(s, net);
    if net.wr.queue == [] {
      FillBalanced(Held(s, net), s.flush, Held(b.srv, b.net), net, FlushDone);
    } else {
      var net1 := net.(wr := net.wr.(queue := net.wr.queue[1..]));
      SameTickets(Held(s, net), net, net1);
      FillBalanced(Held(s, net), s.ready, Held(b.srv, b.net), net1, ReadyDone);
    }
  }

  lemma StopBalanced(s: Srv, net: Net)
    ensures Balanced(Held(Stop(s, net).srv, Stop(s, net).net), Stop(s, net).net)
  {
    assert Held(Stop(s, net).srv, Stop(s, net).net) == multiset{};
  }

  /** What a server step does to the tickets and the channels. */
  ghost predicate ServerKeeps(net: Net, net': Net) {
    && |net'.tickets| == |net.tickets|
    && (forall i | 0 <= i < |net.tickets| :: ShotSet(net.tickets[i], net'.tickets[i]))
    && net'.accepted == net.accepted
    && net'.cmd.holders == net.cmd.holders && net'.cmd.cap == net.cmd.cap && |net'.cmd.queue| <= |net.cmd.queue|
    && net'.wr.holders == net.wr.holders && net'.wr.cap == net.wr.cap && |net'.wr.queue| <= |net.wr.queue|
  }

  /** A server step may only give an answer, or drop the sender of an answer not given. */
  ghost predicate ShotSet(t: Ticket, t': Ticket) {
    t' == t || (t.shot.Empty? && (t'.shot.Filled? || t'.shot.Dropped?) && t' == t.(shot := t'.shot))
  }

  /** A part of a balanced collection is unanswered. */
  lemma HeldUnanswered(held: multiset<nat>, ids: seq<nat>, net: Net)
    requires Balanced(held, net) && multiset(ids) <= held
    ensures forall id | id in ids :: Unanswered(net, id)
  {
    forall id | id in ids
      ensures Unanswered(net, id)
    {
      assert held[id] >= multiset(ids)[id] > 0;
    }
  }

  lemma RequestKeeps(s: Srv, net: Net)
    requires Balanced(Held(s, net), net) && net.cmd.queue != []
    ensures ServerKeeps(net, OnRequest(s, net).net)
  {
    HeldUnanswered(Held(s, net), net.cmd.queue, net);
    assert net.cmd.queue[0] in net.cmd.queue;
    RequestParts(s, net, net.cmd.queue[0]);
    hide OnRequest;
  }

  lemma TryRecvKeeps(s: Srv, net: Net)
    requires Balanced(Held(s, net), net)
    ensures ServerKeeps(net, TryRecv(s, net).net)
  {
    HeldUnanswered(Held(s, net), s.flush, net);
    HeldUnanswered(Held(s, net), s.ready, net);
  }

  lemma ServerStepKeeps(s: Sys, l: Label)
    requires Enabled(s, l) && l.IsServer()
    requires Balanced(Held(s.srv, s.net), s.net)
    ensures ServerKeeps(s.net, Step(s, l).net)
  {
    match l
    case RecvRequest => RequestKeeps(s.srv, s.net); hide OnRequest;
    case TryWrite => TryRecvKeeps(s.srv, s.net); hide TryRecv;
    case _ =>
  }

  lemma ServerSound(clients: map<nat, Client>, net: Net, net': Net)
    requires SoundClients(clients, net) && ServerKeeps(net, net')
    requires net.cmd.Within() && net.wr.Within()
    ensures SoundClients(clients, net') && net'.cmd.Within() && net'.wr.Within()
  {
    forall c | c in clients
      ensures SoundClient(clients[c], net', c)
    {
      forall k | k in clients[c].pending
        ensures Sound(clients[c].pending[k], net', c, k)
      {
        assert Sound(clients[c].pending[k], net, c, k);
        if clients[c].pending[k].State1? {
          assert ShotSet(net.tickets[clients[c].pending[k].recv], net'.tickets[clients[c].pending[k].recv]);
        }
      }
    }
  }

  lemma KeepsKind(ids: seq<nat>, net: Net, net': Net, q: Request)
    requires AllOfKind(ids, net, q) && ServerKeeps(net, net')
    ensures AllOfKind(ids, net', q)
  {
    forall id | id in ids
      ensures id < |net'.tickets| && net'.tickets[id].req == q
    {
      assert ShotSet(net.tickets[id], net'.tickets[id]);
    }
  }

  /** The two notifier lists after a step: kept, emptied, or grown by the head of the queue. */
  lemma NotifierLists(s: Sys, l: Label)
    requires Enabled(s, l) && l.IsServer()
    requires l.RecvRequest? ==> s.net.cmd.queue[0] < |s.net.tickets|
    ensures var s' := Step(s, l);
            var q := if l.RecvRequest? then s.net.tickets[s.net.cmd.queue[0]].req else Write([]);
            && (|| s'.srv.flush == (if q.Flush? then s.srv.flush + [s.net.cmd.queue[0]] else s.srv.flush)
                || s'.srv.flush == [])
            && (|| s'.srv.ready == (if q.Ready? then s.srv.ready + [s.net.cmd.queue[0]] else s.srv.ready)
                || s'.srv.ready == [])
  {
    if l.RecvRequest? {
      RequestParts(s.srv, s.net, s.net.cmd.queue[0]);
      hide OnRequest;
    }
  }

  lemma KindsStep(s: Sys, l: Label)
    requires Enabled(s, l) && l.IsServer()
    requires Balanced(Held(s.srv, s.net), s.net)
    requires AllOfKind(s.srv.flush, s.net, Flush) && AllOfKind(s.srv.ready, s.net, Ready)
    ensures AllOfKind(Step(s, l).srv.flush, Step(s, l).net, Flush)
    ensures AllOfKind(Step(s, l).srv.ready, Step(s, l).net, Ready)
  {
    ServerStepKeeps(s, l);
    if l.RecvRequest? {
      HeldUnanswered(Held(s.srv, s.net), s.net.cmd.queue, s.net);
      assert s.net.cmd.queue[0] in s.net.cmd.queue;
    }
    NotifierLists(s, l);
    var s' := Step(s, l);
    hide Step, ServerKeeps, Enabled, Held, Balanced;
    KeepsKind(s.srv.flush, s.net, s'.net, Flush);
    KeepsKind(s.srv.ready, s.net, s'.net, Ready);
    if l.RecvRequest? {
      var id := s.net.cmd.queue[0];
      KeepsKind([id], s.net, s'.net, s.net.tickets[id].req);
      hide ShotSet;
      AddsKind(s.srv.flush, s'.net, Flush, id);
      AddsKind(s.srv.ready, s'.net, Ready, id);
    }
  }

  lemma AddsKind(ids: seq<nat>, net: Net, q: Request, id: nat)
    requires AllOfKind(ids, net, q) && id < |net.tickets|
    ensures net.tickets[id].req == q ==> AllOfKind(ids + [id], net, q)
  {
  }

  /* Answers are right, and flush answers come late enough. */

  lemma LeftGrows(s: Sys, l: Label)
    requires Enabled(s, l) && l.IsServer()
    ensures Left(Step(s, l).srv) >= Left(s.srv)
  {
    if l.RecvRequest? {
      hide Net.SetShot;
    }
  }

  lemma RequestHonest(s: Srv, net: Net, left: nat)
    requires Balanced(Held(s, net), net) && net.cmd.queue != []
    requires forall id | 0 <= id < |net.tickets| :: Honest(net.tickets[id], left)
    ensures var net' := OnRequest(s, net).net;
            forall id | 0 <= id < |net'.tickets| ::
              Honest(net'.tickets[id], left) && net'.tickets[id].mark == net.tickets[id].mark
  {
    var id := net.cmd.queue[0];
    HeadIsHeld(s, net, id, multiset(net.cmd.queue[1..]) + multiset(s.flush) + multiset(s.ready));
    RequestParts(s, net, id);
    hide OnRequest;
  }

  /** Flush answers are given when everything accepted has left the channel and the slot. */
  lemma TryRecvHonest(s: Srv, net: Net)
    requires AllHonest(s, net) && AllOfKind(s.flush, net, Flush) && AllOfKind(s.ready, net, Ready)
    requires Pipeline(s, net) == net.accepted && s.waiting.None? && s.lost == []
    ensures AllHonest(TryRecv(s, net).srv, TryRecv(s, net).net)
  {
    if net.wr.queue == [] {
      assert |net.accepted| == Left(s);
    }
  }

  lemma HonestStep(s: Sys, l: Label)
    requires Enabled(s, l) && l.IsServer()
    requires Pipeline(s.srv, s.net) == s.net.accepted && Shape(s.srv)
    requires Conserved(s.srv, s.net) && AllHonest(s.srv, s.net)
    ensures AllHonest(Step(s, l).srv, Step(s, l).net)
  {
    LeftGrows(s, l);
    var s' := Step(s, l);
    assert AllHonest(s'.srv, s.net);
    match l
    case RecvRequest =>
      RequestHonest(s.srv, s.net, Left(s'.srv));
      ServerStepKeeps(s, l);
      hide OnRequest;
    case TryWrite =>
      TryRecvHonest(s.srv, s.net);
      hide TryRecv;
    case Timer => hide OnTimer;
    case _ =>
  }

  /** The server gives answers while it runs, and drops requests only when it ends. */
  lemma KeptStep(s: Sys, l: Label)
    requires Enabled(s, l) && l.IsServer()
    requires Balanced(Held(s.srv, s.net), s.net) && AllKept(s.srv, s.net)
    ensures AllKept(Step(s, l).srv, Step(s, l).net)
  {
    match l
    case RecvRequest => RequestKept(s.srv, s.net); hide OnRequest;
    case TryWrite => TryRecvKept(s.srv, s.net); hide TryRecv;
    case Timer => hide OnTimer;
    case _ =>
  }

  lemma RequestKept(s: Srv, net: Net)
    requires Balanced(Held(s, net), net) && net.cmd.queue != []
    requires forall id | 0 <= id < |net.tickets| :: Kept(net.tickets[id])
    ensures AllKept(OnRequest(s, net).srv, OnRequest(s, net).net)
  {
    HeadIsHeld(s, net, net.cmd.queue[0],
               multiset(net.cmd.queue[1..]) + multiset(s.flush) + multiset(s.ready));
    RequestParts(s, net, net.cmd.queue[0]);
    hide OnRequest;
  }

  lemma TryRecvKept(s: Srv, net: Net)
    requires forall id | 0 <= id < |net.tickets| :: Kept(net.tickets[id])
    ensures AllKept(TryRecv(s, net).srv, TryRecv(s, net).net)
  {
  }

  lemma BalancedStep(s: Sys, l: Label)
    requires Enabled(s, l) && l.IsServer()
    requires Balanced(Held(s.srv, s.net), s.net)
    ensures Balanced(Held(Step(s, l).srv, Step(s, l).net), Step(s, l).net)
  {
    match l {
      case RecvRequest => RequestBalanced(s.srv, s.net); hide OnRequest;
      case TryWrite => TryRecvBalanced(s.srv, s.net); hide TryRecv;
      case _ => StopBalanced(s.srv, s.net); hide Stop;
    }
  }

  lemma GoneStep(s: Sys, l: Label)
    requires Enabled(s, l) && l.IsServer()
    requires s.net.gone <==> s.srv.pc == Stopped
    ensures Step(s, l).net.gone <==> Step(s, l).srv.pc == Stopped
  {
  }

  lemma ServerStepInv(s: Sys, l: Label)
    requires Enabled(s, l) && l.IsServer() && Inv(s)
    ensures Inv(Step(s, l))
  {
    ServerStepKeeps(s, l);
    assert Step(s, l).clients == s.clients;
    hide Step, Enabled;
    PipelineStep(s, l);
    ShapeStep(s, l);
    KindsStep(s, l);
    ServerSound(s.clients, s.net, Step(s, l).net);
    HonestStep(s, l);
    KeptStep(s, l);
    BalancedStep(s, l);
    GoneStep(s, l);
  }

  /* The calls of the clients. */

  lemma CallBalanced(s: Srv, net: Net, net': Net, me: nat, key: nat)
    requires Balanced(Held(s, net), net) && TicketsMove(net, net', me, key)
    ensures Balanced(Held(s, net'), net')
  {
    var id := |net.tickets|;
    assert Held(s, net') == Held(s, net) + multiset(if |net'.tickets| > id then [id] else []);
    forall i: nat
      ensures Held(s, net')[i] == if Unanswered(net', i) then 1 else 0
    {
      if i < id {
        assert TicketMove(net.tickets[i], net'.tickets[i], me, key);
      }
    }
  }

  lemma CallHonest(s: Srv, net: Net, net': Net, me: nat, key: nat)
    requires AllHonest(s, net) && Moves(net, net', me, key)
    ensures AllHonest(s, net')
  {
    forall i | 0 <= i < |net'.tickets|
      ensures Honest(net'.tickets[i], Left(s)) && net'.tickets[i].mark <= |net'.accepted|
    {
      if i < |net.tickets| {
        assert TicketMove(net.tickets[i], net'.tickets[i], me, key);
      }
    }
  }

  lemma CallKept(s: Srv, net: Net, net': Net, me: nat, key: nat)
    requires AllKept(s, net) && TicketsMove(net, net', me, key)
    ensures AllKept(s, net')
  {
    forall i | 0 <= i < |net'.tickets|
      ensures s.pc != Stopped ==> Kept(net'.tickets[i])
    {
      if i < |net.tickets| {
        assert TicketMove(net.tickets[i], net'.tickets[i], me, key);
      }
    }
  }

  lemma CallSound(clients: map<nat, Client>, net: Net, c': Client, net': Net, me: nat, key: nat)
    requires SoundClients(clients, net) && me in clients
    requires Moves(net, net', me, key) && SoundClient(c', net', me)
    ensures SoundClients(clients[me := c'], net')
  {
    forall c | c in clients && c != me
      ensures SoundClient(clients[c], net', c)
    {
      assert SoundClient(clients[c], net, c);
      assert c in net.cmd.holders <==> c in net.cmd.holders - {me};
      assert c in net'.cmd.holders <==> c in net'.cmd.holders - {me};
      assert c in net.wr.holders <==> c in net.wr.holders - {me};
      assert c in net'.wr.holders <==> c in net'.wr.holders - {me};
      forall k | k in clients[c].pending
        ensures Sound(clients[c].pending[k], net', c, k)
      {
        if clients[c].pending[k].State1? {
          assert TicketMove(net.tickets[clients[c].pending[k].recv], net'.tickets[clients[c].pending[k].recv], me, key);
        }
      }
    }
    forall i | i in net'.cmd.holders || i in net'.wr.holders
      ensures i in clients[me := c']
    {
      assert i != me ==> i in net'.cmd.holders - {me} || i in net'.wr.holders - {me};
      assert i != me ==> i in net.cmd.holders - {me} || i in net.wr.holders - {me};
    }
  }

  lemma CallKinds(ids: seq<nat>, net: Net, net': Net, me: nat, key: nat, q: Request)
    requires AllOfKind(ids, net, q) && TicketsMove(net, net', me, key)
    ensures AllOfKind(ids, net', q)
  {
    forall id | id in ids
      ensures id < |net'.tickets| && net'.tickets[id].req == q
    {
      assert TicketMove(net.tickets[id], net'.tickets[id], me, key);
    }
  }

  lemma CallPipeline(s: Srv, net: Net, net': Net, me: nat, key: nat)
    requires Pipeline(s, net) == net.accepted && Moves(net, net', me, key)
    ensures Pipeline(s, net') == net'.accepted
  {
    var front := s.acked + s.sent + s.write + Opt(s.waiting) + s.lost;
    var more := net'.wr.queue[|net.wr.queue|..];
    assert net'.wr.queue == net.wr.queue + more;
    assert front + (net.wr.queue + more) == (front + net.wr.queue) + more;
  }

  lemma CallStepInv(s: Sys, l: Label)
    requires Enabled(s, l) && l.IsCall() && Inv(s)
    ensures Inv(Step(s, l))
  {
    var me, key, c := l.c, KeyOf(l), s.clients[l.c];
    CallStepMoves(c, s.net, l);
    var x := CallStep(c, s.net, l);
    hide CallStep;
    CallPipeline(s.srv, s.net, x.net, me, key);
    CallBalanced(s.srv, s.net, x.net, me, key);
    CallKinds(s.srv.flush, s.net, x.net, me, key, Flush);
    CallKinds(s.srv.ready, s.net, x.net, me, key, Ready);
    CallHonest(s.srv, s.net, x.net, me, key);
    CallKept(s.srv, s.net, x.net, me, key);
    CallSound(s.clients, s.net, x.client, x.net, me, key);
  }

  lemma JoinLeaveInv(s: Sys, l: Label)
    requires Enabled(s, l) && (l.Join? || l.Leave?) && Inv(s)
    ensures Inv(Step(s, l))
  {
    var s' := Step(s, l);
    SameTickets(Held(s.srv, s.net), s.net, s'.net);
    assert AllHonest(s'.srv, s'.net);
    forall c | c in s'.clients
      ensures SoundClient(s'.clients[c], s'.net, c)
    {
      if c in s.clients {
        assert SoundClient(s.clients[c], s.net, c);
        forall k | k in s.clients[c].pending
          ensures Sound(s.clients[c].pending[k], s'.net, c, k)
        {
          assert Sound(s.clients[c].pending[k], s.net, c, k);
        }
      }
    }
  }

  lemma StepInv(s: Sys, l: Label)
    requires Enabled(s, l) && Inv(s)
    ensures Inv(Step(s, l))
  {
    hide Inv, Step;
    if l.IsServer() {
      ServerStepInv(s, l);
    } else if l.IsCall() {
      CallStepInv(s, l);
    } else {
      JoinLeaveInv(s, l);
    }
  }

  lemma {:induction false} RunInv(s: Sys, ls: seq<Label>)
    requires Inv(s) && ValidRun(s, ls)
    ensures Inv(Run(s, ls))
    decreases |ls|
  {
    hide Inv, Step, Enabled, Result;
    if ls != [] {
      StepInv(s, ls[0]);
      RunInv(Step(s, ls[0]), ls[1..]);
    }
  }

  /** Every reachable state satisfies the invariant. */
  lemma ReachableInv(s: Sys)
    requires Reachable(s)
    ensures Inv(s)
  {
    hide Step, Enabled, Result, Inv;
    var cmdCap: nat, wrCap: nat, ls :| ValidRun(Init(cmdCap, wrCap), ls) && s == Run(Init(cmdCap, wrCap), ls);
    InitInv(cmdCap, wrCap);
    RunInv(Init(cmdCap, wrCap), ls);
  }

  lemma InitInv(cmdCap: nat, wrCap: nat)
    ensures Inv(Init(cmdCap, wrCap))
  {
    var init := Init(cmdCap, wrCap);
    assert Held(init.srv, init.net) == multiset{};
  }
}
