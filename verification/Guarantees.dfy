/** What the actor promises in every reachable state and over every run. */
module Guarantees {
  import opened Basics
  import opened Channels
  import opened Commands
  import opened Clients
  import opened Server
  import opened Actor
  import opened CallEffects
  import opened Invariant
  import opened Evolution

  /* One FIFO queue. */

  /**
   The containers of the pipeline hold every accepted datagram once, in order,
   also after the server has ended (`lost` is what the write channel then held).
   */
  lemma FifoQueue(s: Sys)
    requires Reachable(s)
    ensures s.net.accepted
         == s.srv.acked + s.srv.sent + s.srv.write + Opt(s.srv.waiting) + s.srv.lost + s.net.wr.queue
    ensures s.srv.pc != Stopped ==> s.srv.lost == []
    ensures |s.srv.write| <= 2
  {
    ReachableInv(s);
  }

  /** The datagram that a call hands over, if it is a call that sends one. */
  function Offered(l: Label): Option<Bytes> {
    if l.CallWriteChunk? || l.CallStartSend? then Some(l.dgram) else None
  }

  /**
   Seen from outside, a step is a step of one queue: it accepts at the end, or it
   acknowledges at the front, or it changes neither. And the caller is told the
   truth: a call that sends returns Ok exactly if its datagram was accepted, and
   nothing is accepted otherwise.
   */
  lemma StepRefinesQueue(s: Sys, l: Label)
    requires Reachable(s) && Fine(s, l)
    ensures var s' := Step(s, l);
            && (Offered(l).Some? && Result(s, l) == Done <==> s'.net.accepted != s.net.accepted)
            && s'.net.accepted == s.net.accepted + (if l.IsCall() && Result(s, l) == Done then Opt(Offered(l)) else [])
            && (s'.srv.acked != s.srv.acked ==>
                  && l.Timer? && |s.srv.acked| < |s.net.accepted|
                  && s'.srv.acked == s.srv.acked + [s.net.accepted[|s.srv.acked|]])
            && (l.Timer? && s.srv.sent != [] ==> s'.srv.acked != s.srv.acked)
  {
    ReachableInv(s);
    if l.IsServer() {
      if l.Timer? && s.srv.sent != [] {
        assert s.net.accepted[|s.srv.acked|] == s.srv.sent[0];
      }
      hide Inv, Net.SetShot;
    } else if l.IsCall() {
      CallAccepts(s.clients[l.c], s.net, l);
      hide CallStep, Inv;
    }
  }

  /** A call accepts its own datagram, when it returns Ok, or nothing. */
  lemma CallAccepts(c: Client, net: Net, l: Label)
    requires l.IsCall() && Consistent(c, net, l.c)
    ensures var x := CallStep(c, net, l);
            x.net.accepted == net.accepted + if x.out == Done then Opt(Offered(l)) else []
  {
    match l
    case CallWrite(c_, k, buf, g) =>
      AdvanceAccepts(if k in c.pending then c else Insert(c, k, State0(Some(Write(buf)))), net, c_, k, g);
      hide Advance;
    case CallFlush(c_, k, g) =>
      AdvanceAccepts(if k in c.pending then c else Insert(c, k, State0(Some(Flush))), net, c_, k, g);
      hide Advance;
    case CallReady(c_, k, g, h) => ReadyMoves(c, net, c_, k, g, h); hide PollReady, StartSend;
    case CallWriteChunk(c_, k, d, g, h) =>
      ReadyMoves(c, net, c_, k, g, h);
      SendAccepts(PollReady(c, net, c_, k, g, h).client, PollReady(c, net, c_, k, g, h).net, c_, d);
      hide PollReady, StartSend;
    case CallStartSend(c_, d) => SendAccepts(c, net, c_, d); hide StartSend;
    case CallClose(c_, k, g, h) =>
      ReadyMoves(if c.cmd.IsClosed() then c else c.(cmd := c.cmd.Close()), net, c_, k, g, h);
      hide PollReady;
  }

  lemma SendAccepts(c: Client, net: Net, me: nat, dgram: Bytes)
    ensures var x := StartSend(c, net, me, dgram);
            x.net.accepted == net.accepted + if x.out == Done then [dgram] else []
  {
  }

  lemma AdvanceAccepts(c: Client, net: Net, me: nat, key: nat, g: bool)
    requires key in c.pending
    ensures Advance(c, net, me, key, g).1.accepted == net.accepted
  {
  }

  /* Credit. */

  /** The bytes in flight and the credit left are the initial window. */
  lemma CreditConserved(s: Sys)
    requires Reachable(s)
    ensures s.srv.cwnd + |Flat(s.srv.sent)| == 10000
    ensures |Flat(s.srv.sent)| <= 10000
  {
    ReachableInv(s);
  }

  /**
   The send phase moves the longest prefix that fits, in order: all of it fits,
   and the datagram after it, if there is one, does not.
   */
  lemma SendPhaseIsGreedy(s: Srv)
    ensures var s' := SendPhase(s);
            && s.sent + s.write == s'.sent + s'.write
            && s.sent <= s'.sent
            && s'.cwnd + |Flat(s'.sent)| == s.cwnd + |Flat(s.sent)|
            && (s'.write != [] ==> |s'.write[0]| > s'.cwnd)
  {
    var n := Fitting(s.write, s.cwnd);
    FittingIsExact(s.write, s.cwnd);
    FlatAppend(s.sent, s.write[..n]);
    hide Flat, Fitting;
    SplitQueue(s.sent, s.write, n);
  }

  lemma SplitQueue(sent: seq<Bytes>, write: seq<Bytes>, n: nat)
    requires n <= |write|
    ensures sent + write == (sent + write[..n]) + write[n..]
  {
    assert write == write[..n] + write[n..];
  }

  /* Slots. */

  /**
   Queued items and held slots never exceed a channel's capacity, the clients
   that hold a slot are exactly those whose sender is in its Reserved state, and
   no stored command has lost its request before sending it.
   */
  lemma SlotsRespected(s: Sys)
    requires Reachable(s)
    ensures |s.net.cmd.queue| + |s.net.cmd.holders| <= s.net.cmd.cap
    ensures |s.net.wr.queue| + |s.net.wr.holders| <= s.net.wr.cap
    ensures forall c :: c in s.net.cmd.holders <==> c in s.clients && s.clients[c].cmd.permit.Reserved?
    ensures forall c :: c in s.net.wr.holders <==> c in s.clients && s.clients[c].wr.permit.Reserved?
    ensures forall c, k | c in s.clients && k in s.clients[c].pending ::
              s.clients[c].pending[k].State0? ==> s.clients[c].pending[k].msg.Some?
  {
    ReachableInv(s);
    forall c, k | c in s.clients && k in s.clients[c].pending
      ensures s.clients[c].pending[k].State0? ==> s.clients[c].pending[k].msg.Some?
    {
      assert SoundClient(s.clients[c], s.net, c);
      assert Sound(s.clients[c].pending[k], s.net, c, k);
    }
  }

  /** Polling a stored command never reports that it has no request. */
  lemma NoRequestUnreachable(s: Sys, c: nat, k: nat, g: bool)
    requires Reachable(s) && c in s.clients && k in s.clients[c].pending
    ensures PollExecute(s.clients[c].pending[k], s.clients[c].cmd, s.net, c, k, g).out != Failure(NoRequest)
  {
    ReachableInv(s);
    assert SoundClient(s.clients[c], s.net, c);
    ExecuteMoves(s.clients[c], s.net, c, k, g);
  }

  /** After `poll_ready` returned Ok, the item of the next `start_send` is accepted. */
  lemma ReadyThenSend(s: Sys, c: nat, k: nat, g: bool, h: bool, dgram: Bytes)
    requires Reachable(s) && c in s.clients && Result(s, CallReady(c, k, g, h)) == Done
    ensures Result(Step(s, CallReady(c, k, g, h)), CallStartSend(c, dgram)) == Done
    ensures Step(Step(s, CallReady(c, k, g, h)), CallStartSend(c, dgram)).net.accepted == s.net.accepted + [dgram]
  {
    ReachableInv(s);
    assert SoundClient(s.clients[c], s.net, c);
    ReadyMoves(s.clients[c], s.net, c, k, g, h);
    var x := PollReady(s.clients[c], s.net, c, k, g, h);
    ReservedSends(x.client, x.net, c, dgram);
    hide PollReady, Inv, SoundClient, CallMoves, StartSend;
  }

  lemma ReservedSends(c: Client, net: Net, me: nat, dgram: Bytes)
    requires c.wr.permit.Reserved?
    ensures StartSend(c, net, me, dgram).out == Done
    ensures StartSend(c, net, me, dgram).net.accepted == net.accepted + [dgram]
  {
  }

  /* Answers. */

  /** The places of a request: the command channel and the two notifier lists. */
  function Places(s: Sys, id: nat): nat {
    multiset(s.net.cmd.queue)[id] + multiset(s.srv.flush)[id] + multiset(s.srv.ready)[id]
  }

  /**
   While the server runs, every request that was sent either has been answered,
   by an answer of its own kind, or it is in exactly one place, once: the command
   channel, or the notifier list of its kind. None is thrown away.
   */
  lemma AnswersConserved(s: Sys, id: nat)
    requires Reachable(s) && s.srv.pc != Stopped && id < |s.net.tickets|
    ensures var t := s.net.tickets[id];
            var answer := t.shot.Answer();
            && (answer.Some? <==> Places(s, id) == 0)
            && (answer.None? <==> Places(s, id) == 1)
            && (answer.None? <==> t.shot.Empty?)
            && (answer.Some? ==> Answers(answer.value, t.req))
            && (answer.None? && id !in s.net.cmd.queue ==>
                  (t.req == Flush && id in s.srv.flush) || (t.req == Ready && id in s.srv.ready))
  {
    ReachableInv(s);
    assert Kept(s.net.tickets[id]);
    InOnePlace(s, id);
  }

  lemma InOnePlace(s: Sys, id: nat)
    requires Inv(s) && id < |s.net.tickets|
    ensures Places(s, id) == if Unanswered(s.net, id) then 1 else 0
    ensures id in s.srv.flush ==> s.net.tickets[id].req == Flush
    ensures id in s.srv.ready ==> s.net.tickets[id].req == Ready
    ensures Unanswered(s.net, id) ==> id in s.net.cmd.queue || id in s.srv.flush || id in s.srv.ready
  {
    assert Held(s.srv, s.net)[id] == Places(s, id);
    assert id in s.net.cmd.queue <==> multiset(s.net.cmd.queue)[id] > 0;
    assert id in s.srv.flush <==> multiset(s.srv.flush)[id] > 0;
    assert id in s.srv.ready <==> multiset(s.srv.ready)[id] > 0;
  }

  /**
   The same in every reachable state, the end of the server included: then, and
   only then, a request can be without an answer and in no place.
   */
  lemma DroppedOnlyAtEnd(s: Sys, id: nat)
    requires Reachable(s) && id < |s.net.tickets|
    ensures var t := s.net.tickets[id];
            && Places(s, id) <= 1
            && (Places(s, id) == 0 && t.shot.Answer().None? ==> s.srv.pc == Stopped)
            && (Places(s, id) == 1 <==> t.shot.Empty?)
            && (t.shot.Answer().Some? ==> Answers(t.shot.Answer().value, t.req))
  {
    ReachableInv(s);
    InOnePlace(s, id);
    assert Kept(s.net.tickets[id]) || s.srv.pc == Stopped;
  }

  /** Along a run a request is answered at most once, and its answer never changes. */
  lemma AnsweredOnce(s: Sys, ls: seq<Label>, id: nat)
    requires Reachable(s) && ValidRun(s, ls) && id < |s.net.tickets|
    ensures var s' := Run(s, ls);
            && id < |s'.net.tickets|
            && s'.net.tickets[id].req == s.net.tickets[id].req
            && (!s.net.tickets[id].shot.Empty? ==>
                  s'.net.tickets[id].shot.Answer() == s.net.tickets[id].shot.Answer() &&
                  (s'.net.tickets[id].shot == s.net.tickets[id].shot || s'.net.tickets[id].shot.Spent?))
  {
    ReachableInv(s);
    RunLater(s, ls);
  }

  /**
   A flush request is answered only by a `try_recv` that found the channel
   empty with no datagram waiting: all that was accepted has departed.
   */
  lemma FlushAnsweredWhenEmpty(s: Sys, l: Label, id: nat)
    requires Reachable(s) && Fine(s, l) && Unanswered(s.net, id) && s.net.tickets[id].req == Flush
    requires Step(s, l).net.ShotOf(id).Filled?
    ensures l.TryWrite? && s.net.wr.queue == [] && s.srv.waiting == None
    ensures s.net.accepted == Departed(s.srv)
  {
    ReachableInv(s);
    OnlyServerAnswers(s, l, id);
    if l.RecvRequest? {
      RequestAnswersWrites(s, id);
      hide OnRequest;
    } else {
      TryRecvAnswers(s, id);
      assert s.net.wr.queue == [];
      hide *;
      NothingBehind(s);
    }
  }

  /** Receiving a request answers it only if it is a write. */
  lemma RequestAnswersWrites(s: Sys, id: nat)
    requires Inv(s) && Enabled(s, RecvRequest) && Unanswered(s.net, id)
    requires OnRequest(s.srv, s.net).net.ShotOf(id).Filled?
    ensures s.net.tickets[id].req.Write?
  {
    HeadIsHeld(s.srv, s.net, s.net.cmd.queue[0],
               multiset(s.net.cmd.queue[1..]) + multiset(s.srv.flush) + multiset(s.srv.ready));
    RequestParts(s.srv, s.net, s.net.cmd.queue[0]);
    hide OnRequest;
  }

  /** One receive answers flush requests on an empty channel, and ready requests otherwise. */
  lemma TryRecvAnswers(s: Sys, id: nat)
    requires Inv(s) && Enabled(s, TryWrite) && Unanswered(s.net, id)
    requires TryRecv(s.srv, s.net).net.ShotOf(id).Filled?
    ensures s.srv.waiting == None
    ensures s.net.wr.queue == [] ==> id in s.srv.flush && s.net.tickets[id].req == Flush
    ensures s.net.wr.queue != [] ==> id in s.srv.ready && s.net.tickets[id].req == Ready
  {
  }

  lemma NothingBehind(s: Sys)
    requires Inv(s) && s.srv.pc != Stopped && s.net.wr.queue == [] && s.srv.waiting == None
    ensures s.net.accepted == Departed(s.srv)
  {
  }

  /**
   A ready request is answered only by a `try_recv` that took a datagram, and
   that answers all of them.
   */
  lemma ReadyAnsweredByDequeue(s: Sys, l: Label, id: nat)
    requires Reachable(s) && Fine(s, l) && Unanswered(s.net, id) && s.net.tickets[id].req == Ready
    requires Step(s, l).net.ShotOf(id).Filled?
    ensures l.TryWrite? && s.net.wr.queue != [] && id in s.srv.ready
  {
    ReachableInv(s);
    OnlyServerAnswers(s, l, id);
    if l.RecvRequest? {
      RequestAnswersWrites(s, id);
      hide OnRequest;
    } else {
      TryRecvAnswers(s, id);
    }
  }

  /** A `try_recv` that takes a datagram answers every ready request that was received. */
  lemma DequeueAnswersAllReady(s: Sys)
    requires Reachable(s) && s.srv.pc == AtDrain && s.net.wr.queue != []
    ensures var s' := Step(s, TryWrite);
            && s'.srv.ready == []
            && (forall id :: id in s.srv.ready ==> id < |s.net.tickets| && s'.net.tickets[id].shot == Filled(ReadyDone))
            && (forall id | 0 <= id < |s.net.tickets| && id !in s.srv.ready :: s'.net.tickets[id] == s.net.tickets[id])
  {
    ReachableInv(s);
  }

  /** A `try_recv` on an empty channel answers every flush request that was received. */
  lemma EmptyAnswersAllFlush(s: Sys)
    requires Reachable(s) && s.srv.pc == AtDrain && s.net.wr.queue == []
    ensures var s' := Step(s, TryWrite);
            && s'.srv.flush == []
            && (forall id :: id in s.srv.flush ==> id < |s.net.tickets| && s'.net.tickets[id].shot == Filled(FlushDone))
            && (forall id | 0 <= id < |s.net.tickets| && id !in s.srv.flush :: s'.net.tickets[id] == s.net.tickets[id])
  {
    ReachableInv(s);
  }

  lemma CallAnswersNothing(net: Net, net': Net, me: nat, key: nat, id: nat)
    requires TicketsMove(net, net', me, key) && Unanswered(net, id)
    ensures !net'.ShotOf(id).Filled?
  {
    assert TicketMove(net.tickets[id], net'.tickets[id], me, key);
  }

  /** No call fills an answer in, and the end of the server drops it. */
  lemma OnlyServerAnswers(s: Sys, l: Label, id: nat)
    requires Inv(s) && Fine(s, l) && Unanswered(s.net, id)
    requires Step(s, l).net.ShotOf(id).Filled?
    ensures l.RecvRequest? || l.TryWrite?
  {
    if l.IsCall() {
      var c := s.clients[l.c];
      CallStepMoves(c, s.net, l);
      hide CallStep;
      CallAnswersNothing(s.net, Step(s, l).net, l.c, KeyOf(l), id);
    } else if l.IsServer() {
      hide Inv, OnRequest, TryRecv;
    }
  }

  /* The flush barrier. */

  /** Client `c` has no request under way under key `k`. */
  predicate NotSent(s: Sys, c: nat, k: nat) {
    c in s.clients && k in s.clients[c].pending ==> s.clients[c].pending[k].State0?
  }

  /** A flush returns Ok exactly when it has the answer to a flush request. */
  lemma FlushDoneMeans(c: Client, net: Net, me: nat, key: nat, g: bool)
    requires Consistent(c, net, me)
    ensures PollFlush(c, net, me, key, g).out == Done <==>
              key in c.pending && c.pending[key].State1? && net.ShotOf(c.pending[key].recv) == Filled(FlushDone)
  {
    var c1 := if key in c.pending then c else Insert(c, key, State0(Some(Flush)));
    assert SoundClient(c1, net, me) && Sound(c1.pending[key], net, me, key);
    match c1.pending[key]
    case State0(msg) => State0Moves(msg.value, c1.cmd, net, me, key, g); hide PollExecute;
    case State1(id) =>
    case Terminated =>
  }

  /**
   Start from any reachable state in which the client has not yet sent the flush
   request. When, after any run, `poll_flush` returns Ok, every datagram that had
   been accepted in the first state has left the write channel and the waiting slot.
   */
  lemma FlushBarrier(s: Sys, ls: seq<Label>, c: nat, k: nat, g: bool)
    requires Reachable(s) && ValidRun(s, ls) && NotSent(s, c, k)
    requires c in Run(s, ls).clients && Result(Run(s, ls), CallFlush(c, k, g)) == Done
    ensures s.net.accepted <= Departed(Run(s, ls).srv)
  {
    var s' := Run(s, ls);
    ReachableInv(s);
    RunLater(s, ls);
    hide Run, ValidRun;
    assert SoundClient(s'.clients[c], s'.net, c);
    FlushDoneMeans(s'.clients[c], s'.net, c, k, g);
    hide PollFlush;
    var id := s'.clients[c].pending[k].recv;
    assert Since(s, c, k, State1(id));
    assert Honest(s'.net.tickets[id], Left(s'.srv));
    assert |s.net.accepted| <= s'.net.tickets[id].mark <= |Departed(s'.srv)|;
    assert Departed(s'.srv) <= s'.net.accepted by {
      hide *;
      DepartedFirst(s');
    }
  }

  lemma DepartedFirst(s: Sys)
    requires Pipeline(s.srv, s.net) == s.net.accepted
    ensures Departed(s.srv) <= s.net.accepted
  {
    assert Pipeline(s.srv, s.net) == Departed(s.srv) + (Opt(s.srv.waiting) + s.srv.lost + s.net.wr.queue);
  }
}
