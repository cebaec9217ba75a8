/**
 From the poll that sends a request to the poll that returns its answer: the
 request goes through the command channel, the server, and back.
 */
module Completion {
  import opened Basics
  import opened Channels
  import opened Commands
  import opened Clients
  import opened Server
  import opened Actor
  import opened CallEffects
  import opened Invariant
  import opened Evolution
  import opened Progress
  import opened Handshake
  import opened Outcomes

  /** Client `c` waits under key `k` for the answer to its request `id`, and has not taken it. */
  predicate Tracks(s: Sys, c: nat, k: nat, id: nat, q: Request) {
    && c in s.clients && k in s.clients[c].pending && s.clients[c].pending[k] == State1(id)
    && id < |s.net.tickets|
    && s.net.tickets[id].owner == c && s.net.tickets[id].key == k && s.net.tickets[id].req == q
    && !s.net.tickets[id].shot.Spent?
  }

  /** A step that polls the operation of client `c` under key `k`, or takes the client away. */
  predicate Disturbs(l: Label, c: nat, k: nat) {
    l == Leave(c) || (l.IsCall() && !l.CallStartSend? && l.c == c && l.k == k)
  }

  predicate LeftAlone(ls: seq<Label>, c: nat, k: nat) {
    forall l | l in ls :: !Disturbs(l, c, k)
  }

  /* The entry and the ticket stay. */

  lemma AdvanceKeeps(cl: Client, net: Net, me: nat, key: nat, g: bool, k: nat)
    requires key in cl.pending && k in cl.pending && key != k
    ensures var cl' := Advance(cl, net, me, key, g).0;
            k in cl'.pending && cl'.pending[k] == cl.pending[k]
  {
    hide PollExecute;
  }

  lemma ReadyKeeps(cl: Client, net: Net, me: nat, key: nat, g: bool, h: bool, k: nat)
    requires k in cl.pending && key != k
    ensures var cl' := PollReady(cl, net, me, key, g, h).client;
            k in cl'.pending && cl'.pending[k] == cl.pending[k]
  {
    var c1 := if key in cl.pending then cl
              else Insert(cl, key, if net.wr.Free() > 0 then Terminated else State0(Some(Ready)));
    ReadyCases(cl, c1, net, me, key, g, h);
    AdvanceKeeps(c1, net, me, key, g, k);
    hide PollReady, Advance, Reserve, Chan.Free;
  }

  /** A call under another key leaves an entry as it is. */
  lemma CallKeeps(cl: Client, net: Net, l: Label, k: nat)
    requires l.IsCall() && k in cl.pending && (l.CallStartSend? || l.k != k)
    ensures var cl' := CallStep(cl, net, l).client;
            k in cl'.pending && cl'.pending[k] == cl.pending[k]
  {
    match l
    case CallWrite(c_, key, buf, g) =>
      AdvanceKeeps(if key in cl.pending then cl else Insert(cl, key, State0(Some(Write(buf)))), net, c_, key, g, k);
      hide Advance;
    case CallFlush(c_, key, g) =>
      AdvanceKeeps(if key in cl.pending then cl else Insert(cl, key, State0(Some(Flush))), net, c_, key, g, k);
      hide Advance;
    case CallReady(c_, key, g, h) => ReadyKeeps(cl, net, c_, key, g, h, k); hide PollReady;
    case CallWriteChunk(c_, key, d, g, h) => ReadyKeeps(cl, net, c_, key, g, h, k); hide PollReady;
    case CallStartSend(c_, d) =>
    case CallClose(c_, key, g, h) =>
      ReadyKeeps(if cl.cmd.IsClosed() then cl else cl.(cmd := cl.cmd.Close()), net, c_, key, g, h, k);
      hide PollReady;
  }

  lemma CallTracks(s: Sys, l: Label, c: nat, k: nat, id: nat, q: Request)
    requires Inv(s) && Enabled(s, l) && l.IsCall() && Tracks(s, c, k, id, q) && !Disturbs(l, c, k)
    ensures Tracks(Step(s, l), c, k, id, q)
  {
    var cl := s.clients[l.c];
    assert SoundClient(cl, s.net, l.c);
    CallStepMoves(cl, s.net, l);
    if l.c == c {
      CallKeeps(cl, s.net, l, k);
    }
    if l.CallStartSend? {
      SendKeepsTickets(cl, s.net, l.c, l.dgram);
    } else {
      TicketKept(s.net, CallStep(cl, s.net, l).net, l.c, KeyOf(l), id);
    }
    hide CallMoves, Inv;
    hide PollWrite, PollFlush, PollReady, PollWriteChunk, PollClose, StartSend;
  }

  lemma SendKeepsTickets(cl: Client, net: Net, me: nat, dgram: Bytes)
    ensures StartSend(cl, net, me, dgram).net.tickets == net.tickets
  {
  }

  lemma TicketKept(net: Net, net': Net, me: nat, key: nat, id: nat)
    requires TicketsMove(net, net', me, key) && id < |net.tickets|
    requires net.tickets[id].owner != me || net.tickets[id].key != key
    ensures id < |net'.tickets| && net'.tickets[id] == net.tickets[id]
  {
    assert TicketMove(net.tickets[id], net'.tickets[id], me, key);
  }

  lemma TracksStep(s: Sys, l: Label, c: nat, k: nat, id: nat, q: Request)
    requires Inv(s) && Enabled(s, l) && Tracks(s, c, k, id, q) && !Disturbs(l, c, k)
    ensures Tracks(Step(s, l), c, k, id, q)
  {
    if l.IsServer() {
      ServerStepKeeps(s, l);
      assert Step(s, l).clients == s.clients;
      hide Step;
      assert ShotSet(s.net.tickets[id], Step(s, l).net.tickets[id]);
    } else if l.IsCall() {
      CallTracks(s, l, c, k, id, q);
      hide Step, Tracks;
    } else {
      hide Inv;
    }
  }

  lemma {:induction false} TracksRun(s: Sys, ls: seq<Label>, c: nat, k: nat, id: nat, q: Request)
    requires Inv(s) && ValidRun(s, ls) && Tracks(s, c, k, id, q) && LeftAlone(ls, c, k)
    ensures Inv(Run(s, ls)) && Tracks(Run(s, ls), c, k, id, q)
    decreases |ls|
  {
    hide Inv, Step, Enabled, Result, Tracks, Disturbs;
    if ls != [] {
      assert ls[0] in ls && forall l | l in ls[1..] :: l in ls;
      TracksStep(s, ls[0], c, k, id, q);
      StepInv(s, ls[0]);
      TracksRun(Step(s, ls[0]), ls[1..], c, k, id, q);
    }
  }

  /* The request moves up the command channel. */

  /** How many requests the server receives. */
  function Receipts(ls: seq<Label>): nat {
    if ls == [] then 0 else (if ls[0].RecvRequest? then 1 else 0) + Receipts(ls[1..])
  }

  /** Request `id` is the `n`-th in the command channel. */
  predicate Queued(s: Sys, id: nat, n: nat) {
    n < |s.net.cmd.queue| && s.net.cmd.queue[n] == id
  }

  lemma QueuedStep(s: Sys, l: Label, id: nat, n: nat)
    requires Inv(s) && Enabled(s, l) && Queued(s, id, n) && (l.RecvRequest? ==> n > 0)
    requires Step(s, l).srv.pc != Stopped
    ensures Queued(Step(s, l), id, if l.RecvRequest? then n - 1 else n)
  {
    if l.IsCall() {
      CallStepMoves(s.clients[l.c], s.net, l);
      hide CallStep, Inv;
    } else if l.RecvRequest? {
      HeadIsHeld(s.srv, s.net, s.net.cmd.queue[0],
                 multiset(s.net.cmd.queue[1..]) + multiset(s.srv.flush) + multiset(s.srv.ready));
      RequestParts(s.srv, s.net, s.net.cmd.queue[0]);
      hide OnRequest, Inv;
    } else {
      hide Inv;
    }
  }

  lemma {:induction false} QueuedRun(s: Sys, ls: seq<Label>, id: nat, n: nat)
    requires Inv(s) && ValidRun(s, ls) && Queued(s, id, n) && Receipts(ls) <= n
    requires Run(s, ls).srv.pc != Stopped
    ensures Queued(Run(s, ls), id, n - Receipts(ls))
    decreases |ls|
  {
    hide Inv, Step, Enabled, Result, Queued;
    if ls != [] {
      StaysStopped(Step(s, ls[0]), ls[1..]);
      QueuedStep(s, ls[0], id, n);
      StepInv(s, ls[0]);
      QueuedRun(Step(s, ls[0]), ls[1..], id, if ls[0].RecvRequest? then n - 1 else n);
    }
  }

  /* The poll that sends. */

  /** The command that a call polls. */
  function Polled(s: Sys, l: Label): Command
    requires l.IsCall() && !l.CallStartSend? && l.c in s.clients
  {
    var cl := s.clients[l.c];
    match l
    case CallWrite(_, k, buf, _) => Entry(cl, k, State0(Some(Write(buf))))
    case CallFlush(_, k, _) => Entry(cl, k, State0(Some(Flush)))
    case _ => ReadyEntry(cl, s.net, l.k)
  }

  /** The call is about to send the request `q`, and it gets a slot for it. */
  predicate Sends(s: Sys, l: Label, q: Request) {
    && (l.CallWrite? || l.CallFlush? || l.CallReady? || l.CallWriteChunk?)
    && l.c in s.clients && Polled(s, l) == State0(Some(q))
    && ((l.CallReady? || l.CallWriteChunk?) ==> l.k in s.clients[l.c].pending || s.clients[l.c].wr.open)
    && Grants(s.clients[l.c].cmd, s.net.cmd, s.net.gone, l.g)
  }

  /** The request was sent, and nothing else changed for the server. */
  predicate WasSent(s: Sys, s1: Sys, c: nat, k: nat, q: Request) {
    && Tracks(s1, c, k, |s.net.tickets|, q)
    && s1.net.cmd.queue == s.net.cmd.queue + [|s.net.tickets|]
    && s1.srv == s.srv && s1.net.accepted == s.net.accepted && s1.net.wr == s.net.wr
  }

  lemma AdvanceSends(cl: Client, net: Net, me: nat, key: nat, g: bool, q: Request)
    requires key in cl.pending && cl.pending[key] == State0(Some(q)) && Grants(cl.cmd, net.cmd, net.gone, g)
    ensures var (cl', net', out) := Advance(cl, net, me, key, g);
            && out == Pending
            && key in cl'.pending && cl'.pending[key] == State1(|net.tickets|)
            && net'.tickets == net.tickets + [Ticket(q, Empty, me, key, |net.accepted|)]
            && net'.cmd.queue == net.cmd.queue + [|net.tickets|]
            && net'.accepted == net.accepted && net'.wr == net.wr
  {
  }

  /** A poll that gets a slot sends its request, and returns Pending. */
  lemma PollSends(s: Sys, l: Label, q: Request)
    requires Sends(s, l, q)
    ensures Result(s, l) == Waiting && WasSent(s, Step(s, l), l.c, l.k, q)
  {
    hide Advance;
    var cl := s.clients[l.c];
    var c1 := if l.k in cl.pending then cl else Insert(cl, l.k, State0(Some(q)));
    assert l.k in c1.pending && c1.pending[l.k] == State0(Some(q));
    AdvanceSends(c1, s.net, l.c, l.k, l.g, q);
    if l.CallReady? || l.CallWriteChunk? {
      ReadyCases(cl, c1, s.net, l.c, l.k, l.g, l.h);
      ReadyWaits(cl, c1, s.net, l.c, l.k, l.g, l.h);
      hide PollReady;
    }
  }

  lemma ReadyWaits(cl: Client, c1: Client, net: Net, me: nat, key: nat, g: bool, h: bool)
    requires c1 == if key in cl.pending then cl
                   else Insert(cl, key, if net.wr.Free() > 0 then Terminated else State0(Some(Ready)))
    requires (key in cl.pending || cl.wr.open) && !c1.pending[key].Terminated?
    requires Advance(c1, net, me, key, g).2 == Pending
    ensures PollReady(cl, net, me, key, g, h).out == Waiting
  {
    hide Advance;
  }

  lemma AfterSend(s: Sys, l: Label, q: Request)
    requires Reachable(s) && Sends(s, l, q)
    ensures Fine(s, l) && Reachable(Step(s, l)) && Inv(Step(s, l)) && WasSent(s, Step(s, l), l.c, l.k, q)
  {
    PollSends(s, l, q);
    ReachableStep(s, l);
    hide Reachable;
    ReachableInv(Step(s, l));
  }

  /* From the one to the other. */

  /**
   The request of a poll, in a run that first receives the requests queued before
   it and then this one: there the server receives it, and the client still waits.
   */
  lemma ComesUp(s: Sys, l: Label, q: Request, a: seq<Label>)
    requires Reachable(s) && Sends(s, l, q)
    requires ValidRun(Step(s, l), a) && LeftAlone(a, l.c, l.k) && Receipts(a) == |s.net.cmd.queue|
    requires Run(Step(s, l), a).srv.pc != Stopped
    ensures var s2 := Run(Step(s, l), a);
            && Reachable(s2) && Inv(s2) && Tracks(s2, l.c, l.k, |s.net.tickets|, q)
            && s2.net.cmd.queue != [] && s2.net.cmd.queue[0] == |s.net.tickets|
  {
    hide Step, Enabled, Result, Inv, Reachable, Tracks, Grants, Polled;
    AfterSend(s, l, q);
    var s1, id := Step(s, l), |s.net.tickets|;
    TracksRun(s1, a, l.c, l.k, id, q);
    QueuedRun(s1, a, id, |s.net.cmd.queue|);
    ReachableRun(s1, a);
  }

  /** The answer that a waiting client has not taken is there to be taken. */
  lemma StillThere(s: Sys, c: nat, k: nat, id: nat, q: Request)
    requires Tracks(s, c, k, id, q)
    ensures forall r :: s.net.ShotOf(id).Answer() == Some(r) <==> s.net.ShotOf(id) == Filled(r)
  {
  }

  lemma NothingOwingMore(s: Sys, t: Sys)
    requires Later(s, t) && t.net.accepted == s.net.accepted
    ensures Owing(t) <= Owing(s)
  {
    hide Deliverable;
  }

  /** The state in which the server receives the request, for a run that accepts nothing. */
  lemma QuietComesUp(s: Sys, l: Label, q: Request, a: seq<Label>, b: seq<Label>)
    requires Reachable(s) && Sends(s, l, q)
    requires ValidRun(Step(s, l), a) && ValidRun(Run(Step(s, l), a), b)
    requires LeftAlone(a, l.c, l.k) && LeftAlone(b, l.c, l.k) && Receipts(a) == |s.net.cmd.queue|
    requires var t := Run(Run(Step(s, l), a), b); t.net.accepted == s.net.accepted && t.srv.pc != Stopped
    requires Notifies(q)
    ensures var s2 := Run(Step(s, l), a);
            var t := Run(s2, b);
            && Reachable(s2) && Receives(s2, |s.net.tickets|, q)
            && s2.net.accepted == s.net.accepted && Owing(s2) <= Owing(s)
            && Reachable(t) && Tracks(t, l.c, l.k, |s.net.tickets|, q)
  {
    hide Step, Enabled, Result, Inv, Reachable, LeftAlone, Grants, Polled;
    AfterSend(s, l, q);
    var s1 := Step(s, l);
    var s2 := Run(s1, a);
    StaysStopped(s2, b);
    ComesUp(s, l, q, a);
    RunLater(s1, a);
    RunLater(s2, b);
    ReachableRun(s2, b);
    TracksRun(s2, b, l.c, l.k, |s.net.tickets|, q);
    hide Run, ValidRun;
    SameAccepted(s1, s2, Run(s2, b));
    NothingOwingMore(s1, s2);
    SameOwing(s, s1);
  }

  lemma SameAccepted(s: Sys, m: Sys, t: Sys)
    requires Later(s, m) && Later(m, t) && t.net.accepted == s.net.accepted
    ensures m.net.accepted == s.net.accepted
  {
  }

  lemma SameOwing(s: Sys, t: Sys)
    requires t.srv == s.srv && t.net.accepted == s.net.accepted
    ensures Owing(t) == Owing(s)
  {
  }

  /**
   A flush, from the poll that sends its request to the poll that returns. After a
   run that accepts nothing, in which the server receives the requests queued
   before and this one and then has its rounds, the next poll returns Ok if no
   oversized datagram has two others behind it, and Pending if one has.
   */
  lemma FlushCompletes(s: Sys, l: Label, a: seq<Label>, b: seq<Label>, g: bool)
    requires Reachable(s) && l.CallFlush? && Sends(s, l, Flush)
    requires ValidRun(Step(s, l), a) && ValidRun(Run(Step(s, l), a), b)
    requires LeftAlone(a, l.c, l.k) && LeftAlone(b, l.c, l.k)
    requires Receipts(a) == |s.net.cmd.queue| && b != [] && b[0] == RecvRequest
    requires var t := Run(Run(Step(s, l), a), b);
             && t.net.accepted == s.net.accepted && t.srv.pc != Stopped
             && Rounds(b, t) >= Owing(s) + 2
    ensures var t := Run(Run(Step(s, l), a), b);
            && l.c in t.clients
            && Result(t, CallFlush(l.c, l.k, g))
               == if forall i | 0 <= i < |s.net.accepted| ::
                       |s.net.accepted[i]| > 10000 ==> i + 2 >= |s.net.accepted|
                  then Done else Waiting
  {
    hide Step, Result, Inv, LeftAlone, Grants, Polled, Owing, Deliverable;
    var id, s2 := |s.net.tickets|, Run(Step(s, l), a);
    var t := Run(s2, b);
    QuietComesUp(s, l, Flush, a, b);
    FlushAnsweredIff(s2, b, id);
    StillThere(t, l.c, l.k, id, Flush);
    hide Run, ValidRun, LeftAlone;
    FlushOutcome(t, l.c, l.k, g);
    hide Reachable;
    if Unanswered(t.net, id) {
      FlushPending(t, l.c, l.k, id, g);
    }
  }

  lemma FlushPending(t: Sys, c: nat, k: nat, id: nat, g: bool)
    requires Tracks(t, c, k, id, Flush) && Unanswered(t.net, id)
    ensures Result(t, CallFlush(c, k, g)) == Waiting
  {
  }

  /**
   A write: after the server has received the requests queued before and this one,
   whatever else happens, the next poll returns the number of bytes.
   */
  lemma WriteCompletes(s: Sys, l: Label, buf: Bytes, a: seq<Label>, b: seq<Label>, again: Bytes, g: bool)
    requires Reachable(s) && l.CallWrite? && Sends(s, l, Write(buf))
    requires ValidRun(Step(s, l), a) && ValidRun(Run(Step(s, l), a), b)
    requires LeftAlone(a, l.c, l.k) && LeftAlone(b, l.c, l.k)
    requires Receipts(a) == |s.net.cmd.queue| && b != [] && b[0] == RecvRequest
    ensures var t := Run(Run(Step(s, l), a), b);
            l.c in t.clients && Result(t, CallWrite(l.c, l.k, again, g)) == Wrote(|buf|)
  {
    var id, s2 := |s.net.tickets|, Run(Step(s, l), a);
    var t := Run(s2, b);
    assert Enabled(s2, RecvRequest);
    ComesUp(s, l, Write(buf), a);
    WriteReceived(s2, l.c, l.k, id, buf);
    var s3 := Step(s2, RecvRequest);
    TracksRun(s2, b, l.c, l.k, id, Write(buf));
    StepInv(s2, RecvRequest);
    RunLater(s3, b[1..]);
    ReachableRun(s2, b);
    StillThere(t, l.c, l.k, id, Write(buf));
    assert s3.net.ShotOf(id).Answer() == Some(Written(|buf|));
    assert t == Run(s3, b[1..]);
    hide Step, Enabled, Result, Inv, Sends, Run, ValidRun, LeftAlone;
    AnswerLater(s3, t, id);
    WriteOutcome(t, l.c, l.k, again, g);
    hide Reachable;
  }

  lemma WriteReceived(s: Sys, c: nat, k: nat, id: nat, buf: Bytes)
    requires Inv(s) && Enabled(s, RecvRequest) && s.net.cmd.queue[0] == id && Tracks(s, c, k, id, Write(buf))
    ensures Step(s, RecvRequest).net.ShotOf(id) == Filled(Written(|buf|))
  {
    RequestParts(s.srv, s.net, id);
    hide OnRequest, Inv;
  }

  lemma AnswerLater(s: Sys, t: Sys, id: nat)
    requires Later(s, t) && id < |s.net.tickets| && s.net.ShotOf(id).Answer().Some?
    ensures t.net.ShotOf(id).Answer() == s.net.ShotOf(id).Answer()
  {
  }

  /**
   A ready request: with `s2` the state in which the server receives it, the next
   poll of `poll_ready` gets past its command exactly if the channel held a datagram
   there and at most two stuck ones were ahead of it; then it returns Ok exactly if
   the runtime hands over a slot.
   */
  lemma ReadyCompletes(s: Sys, l: Label, a: seq<Label>, b: seq<Label>, g: bool, h: bool)
    requires Reachable(s) && (l.CallReady? || l.CallWriteChunk?) && Sends(s, l, Ready)
    requires ValidRun(Step(s, l), a) && ValidRun(Run(Step(s, l), a), b)
    requires LeftAlone(a, l.c, l.k) && LeftAlone(b, l.c, l.k)
    requires Receipts(a) == |s.net.cmd.queue| && b != [] && b[0] == RecvRequest
    requires var t := Run(Run(Step(s, l), a), b);
             && t.net.accepted == s.net.accepted && t.srv.pc != Stopped
             && Rounds(b, t) >= Owing(s) + 2
    ensures var s2 := Run(Step(s, l), a);
            var t := Run(s2, b);
            && l.c in t.clients
            && (Result(t, CallReady(l.c, l.k, g, h)) == Done <==>
                  && s2.net.wr.queue != []
                  && (forall i | 0 <= i < |s.net.accepted| ::
                        |s.net.accepted[i]| > 10000 ==> i + 2 + |s2.net.wr.queue| >= |s.net.accepted|)
                  && Grants(t.clients[l.c].wr, t.net.wr, t.net.gone, h))
  {
    hide Step, Result, Inv, LeftAlone, Grants, Polled, Owing, Deliverable;
    var id, s2 := |s.net.tickets|, Run(Step(s, l), a);
    var t := Run(s2, b);
    QuietComesUp(s, l, Ready, a, b);
    ReadyAnsweredExactly(s2, b, id);
    StillThere(t, l.c, l.k, id, Ready);
    hide Run, ValidRun, Reachable;
    ReadyPolled(t, l.c, l.k, id, g, h);
  }

  lemma ReadyPolled(t: Sys, c: nat, k: nat, id: nat, g: bool, h: bool)
    requires Reachable(t) && Tracks(t, c, k, id, Ready)
    ensures Result(t, CallReady(c, k, g, h)) == Done <==>
              t.net.ShotOf(id) == Filled(ReadyDone) && Grants(t.clients[c].wr, t.net.wr, t.net.gone, h)
  {
    ReadyCallsOutcome(t, CallReady(c, k, g, h));
    hide Reachable, Result, Grants;
  }
}
