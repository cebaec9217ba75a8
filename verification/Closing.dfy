/** What closing a command sender means for the rest of a run. */
module Closing {
  import opened Basics
  import opened Channels
  import opened Commands
  import opened Clients
  import opened Server
  import opened Actor
  import opened CallEffects
  import opened Invariant

  /** A sender that gave up its own handle is closed, or it is about to be: it holds its last slot. */
  predicate Sealed(s: PollSender) {
    s.open || !s.permit.Idle?
  }

  /** No new slot will ever be asked for. */
  predicate Shut(s: PollSender) {
    s.permit.Closed? || (!s.open && s.permit.Reserved?)
  }

  /** The slots such a sender still has to use. */
  function Due(s: PollSender): nat {
    if s.permit.Reserved? then 1 else 0
  }

  /** What a call does to the command sender: `more` requests are sent. */
  ghost predicate SenderMove(s: PollSender, s': PollSender, more: int) {
    && (Sealed(s) ==> Sealed(s'))
    && (Shut(s) ==> Shut(s') && more + Due(s') <= Due(s))
  }

  lemma ExecuteSender(cmd: Command, s: PollSender, net: Net, me: nat, key: nat, g: bool)
    ensures var x := PollExecute(cmd, s, net, me, key, g);
            SenderMove(s, x.sender, |x.net.tickets| - |net.tickets|)
  {
  }

  lemma ReadySender(c: Client, net: Net, me: nat, key: nat, g: bool, h: bool)
    ensures var x := PollReady(c, net, me, key, g, h);
            SenderMove(c.cmd, x.client.cmd, |x.net.tickets| - |net.tickets|)
  {
    var c1 := if key in c.pending then c
              else Insert(c, key, if net.wr.Free() > 0 then Terminated else State0(Some(Ready)));
    ReadyCases(c, c1, net, me, key, g, h);
    hide PollReady;
    if (key in c.pending || c.wr.open) && !c1.pending[key].Terminated? {
      ExecuteSender(c1.pending[key], c1.cmd, net, me, key, g);
      hide PollExecute, SenderMove;
    }
  }

  lemma WriteSender(c: Client, net: Net, me: nat, key: nat, buf: Bytes, g: bool)
    ensures var x := PollWrite(c, net, me, key, buf, g);
            SenderMove(c.cmd, x.client.cmd, |x.net.tickets| - |net.tickets|)
  {
    ExecuteSender(if key in c.pending then c.pending[key] else State0(Some(Write(buf))), c.cmd, net, me, key, g);
    hide PollExecute, SenderMove;
  }

  lemma FlushSender(c: Client, net: Net, me: nat, key: nat, g: bool)
    ensures var x := PollFlush(c, net, me, key, g);
            SenderMove(c.cmd, x.client.cmd, |x.net.tickets| - |net.tickets|)
  {
    ExecuteSender(if key in c.pending then c.pending[key] else State0(Some(Flush)), c.cmd, net, me, key, g);
    hide PollExecute, SenderMove;
  }

  lemma CallSender(c: Client, net: Net, l: Label)
    requires l.IsCall()
    ensures var x := CallStep(c, net, l);
            SenderMove(c.cmd, x.client.cmd, |x.net.tickets| - |net.tickets|)
  {
    match l
    case CallWrite(c_, k, buf, g) => WriteSender(c, net, c_, k, buf, g); hide PollWrite;
    case CallFlush(c_, k, g) => FlushSender(c, net, c_, k, g); hide PollFlush;
    case CallReady(c_, k, g, h) => ReadySender(c, net, c_, k, g, h); hide PollReady;
    case CallWriteChunk(c_, k, d, g, h) => ReadySender(c, net, c_, k, g, h); hide PollReady;
    case CallStartSend(c_, d) =>
    case CallClose(c_, k, g, h) =>
      ReadySender(if c.cmd.IsClosed() then c else c.(cmd := c.cmd.Close()), net, c_, k, g, h);
      hide PollReady;
  }

  /** After `poll_close` the sender is shut. */
  lemma CloseShuts(c: Client, net: Net, l: Label)
    requires l.CallClose? && Sealed(c.cmd)
    ensures var x := CallStep(c, net, l);
            && Shut(x.client.cmd)
            && |x.net.tickets| - |net.tickets| + Due(x.client.cmd) <= Due(c.cmd)
  {
    ReadySender(if c.cmd.IsClosed() then c else c.(cmd := c.cmd.Close()), net, l.c, l.k, l.g, l.h);
    hide PollReady;
  }

  ghost predicate AllSealed(s: Sys) {
    forall c | c in s.clients :: Sealed(s.clients[c].cmd)
  }

  lemma SealedStep(s: Sys, l: Label)
    requires Enabled(s, l) && AllSealed(s)
    ensures AllSealed(Step(s, l))
  {
    if l.IsCall() {
      CallSender(s.clients[l.c], s.net, l);
      hide CallStep;
    }
  }

  lemma {:induction false} SealedRun(s: Sys, ls: seq<Label>)
    requires ValidRun(s, ls) && AllSealed(s)
    ensures AllSealed(Run(s, ls))
    decreases |ls|
  {
    if ls != [] {
      SealedStep(s, ls[0]);
      hide Step, Enabled, Result, AllSealed;
      SealedRun(Step(s, ls[0]), ls[1..]);
    }
  }

  /* How many requests a client has sent. */

  function SentBy(tickets: seq<Ticket>, c: nat): nat {
    if tickets == [] then 0 else
      SentBy(tickets[..|tickets| - 1], c) + if tickets[|tickets| - 1].owner == c then 1 else 0
  }

  predicate SameOwners(a: seq<Ticket>, b: seq<Ticket>) {
    |a| <= |b| && forall i | 0 <= i < |a| :: a[i].owner == b[i].owner
  }

  lemma {:induction false} SentSame(a: seq<Ticket>, b: seq<Ticket>, c: nat)
    requires |a| == |b| && SameOwners(a, b)
    ensures SentBy(a, c) == SentBy(b, c)
  {
    if a != [] {
      SentSame(a[..|a| - 1], b[..|b| - 1], c);
    }
  }

  lemma SentMore(a: seq<Ticket>, b: seq<Ticket>, c: nat)
    requires SameOwners(a, b) && |b| <= |a| + 1
    ensures SentBy(b, c) == SentBy(a, c) + if |b| > |a| && b[|a|].owner == c then 1 else 0
  {
    SentSame(a, b[..|a|], c);
    assert |b| == |a| ==> b[..|a|] == b;
  }

  /** The requests that client `c` has sent, and the slot it may still use. */
  function Charge(s: Sys, c: nat): nat {
    SentBy(s.net.tickets, c) + if c in s.clients then Due(s.clients[c].cmd) else 0
  }

  predicate Finished(s: Sys, c: nat) {
    c in s.clients ==> Shut(s.clients[c].cmd)
  }

  lemma StepOwners(s: Sys, l: Label)
    requires Inv(s) && Enabled(s, l)
    ensures var a, b := s.net.tickets, Step(s, l).net.tickets;
            && SameOwners(a, b) && |b| <= |a| + 1
            && (|b| > |a| ==> l.IsCall() && b[|a|].owner == l.c)
  {
    if l.IsCall() {
      CallStepMoves(s.clients[l.c], s.net, l);
      CallOwners(s.net, Step(s, l).net, l.c, KeyOf(l));
      hide CallStep;
    } else if l.IsServer() {
      ServerStepKeeps(s, l);
      ServerOwners(s.net, Step(s, l).net);
      hide Step;
    }
  }

  lemma CallOwners(net: Net, net': Net, me: nat, key: nat)
    requires TicketsMove(net, net', me, key)
    ensures SameOwners(net.tickets, net'.tickets)
  {
    forall i | 0 <= i < |net.tickets|
      ensures net.tickets[i].owner == net'.tickets[i].owner
    {
      assert TicketMove(net.tickets[i], net'.tickets[i], me, key);
    }
  }

  lemma ServerOwners(net: Net, net': Net)
    requires ServerKeeps(net, net')
    ensures SameOwners(net.tickets, net'.tickets)
  {
    forall i | 0 <= i < |net.tickets|
      ensures net.tickets[i].owner == net'.tickets[i].owner
    {
      assert ShotSet(net.tickets[i], net'.tickets[i]);
    }
  }

  /** No new client takes the place of `c`. */
  predicate NoJoin(ls: seq<Label>, c: nat) {
    forall l | l in ls :: !(l.Join? && l.c == c)
  }

  lemma ChargeStep(s: Sys, l: Label, c: nat)
    requires Inv(s) && Enabled(s, l) && Finished(s, c) && !(l.Join? && l.c == c)
    ensures Finished(Step(s, l), c) && Charge(Step(s, l), c) <= Charge(s, c)
  {
    StepOwners(s, l);
    SentMore(s.net.tickets, Step(s, l).net.tickets, c);
    if l.IsCall() {
      CallSender(s.clients[l.c], s.net, l);
    }
    hide CallStep, ServerStep, SentBy, Inv, SameOwners;
  }

  lemma {:induction false} ChargeRun(s: Sys, ls: seq<Label>, c: nat)
    requires Inv(s) && ValidRun(s, ls) && Finished(s, c) && NoJoin(ls, c)
    ensures Charge(Run(s, ls), c) <= Charge(s, c)
    decreases |ls|
  {
    if ls != [] {
      assert ls[0] in ls && forall l | l in ls[1..] :: l in ls;
      ChargeStep(s, ls[0], c);
      StepInv(s, ls[0]);
      hide Step, Enabled, Inv, Charge, Finished;
      ChargeRun(Step(s, ls[0]), ls[1..], c);
    }
  }

  /**
   When the server sees the command channel closed: it is empty, and every client
   has closed its sender and holds no slot of the channel.
   */
  lemma ClosedIff(s: Sys)
    requires Reachable(s)
    ensures Enabled(s, RecvClosed) <==>
              && s.srv.pc == AtSelect && s.net.cmd.queue == []
              && forall c :: c in s.clients ==> !s.clients[c].cmd.open && s.clients[c].cmd.permit.Closed?
  {
    ReachableInv(s);
    ReachableSealed(s);
    hide Reachable;
    forall c | c in s.clients
      ensures s.clients[c].cmd.permit.Reserved? <==> c in s.net.cmd.holders
      ensures Sealed(s.clients[c].cmd)
    {
      assert SoundClient(s.clients[c], s.net, c);
    }
    if forall c :: c in s.clients ==> !s.clients[c].cmd.open && s.clients[c].cmd.permit.Closed? {
      assert forall c :: c in s.net.cmd.holders ==> c in s.clients;
      assert s.net.cmd.holders == {};
    }
  }

  /** And it stays so while only clients run and none joins. */
  lemma DesertedStep(s: Sys, l: Label)
    requires Inv(s) && AllSealed(s) && Enabled(s, l) && !l.IsServer() && !l.Join?
    requires s.net.cmd.queue == [] && Deserted(s)
    ensures Step(s, l).net.cmd.queue == [] && Deserted(Step(s, l)) && Step(s, l).srv == s.srv
  {
    if l.IsCall() {
      CallSilent(s, l);
      hide Inv, CallStep;
    } else {
      hide Inv;
    }
  }

  lemma CallSilent(s: Sys, l: Label)
    requires Inv(s) && AllSealed(s) && Enabled(s, l) && l.IsCall()
    requires s.net.cmd.queue == [] && Deserted(s)
    ensures var x := CallStep(s.clients[l.c], s.net, l);
            x.net.cmd.queue == [] && x.net.cmd.holders == {} && !x.client.cmd.open
  {
    var c := s.clients[l.c];
    assert SoundClient(c, s.net, l.c) && Sealed(c.cmd);
    CallSender(c, s.net, l);
    CallStepMoves(c, s.net, l);
    CallStaysClosed(c, s.net, l);
    var x := CallStep(c, s.net, l);
    hide CallStep, Inv;
    assert l.c !in x.net.cmd.holders;
    assert x.net.cmd.holders == x.net.cmd.holders - {l.c} == s.net.cmd.holders - {l.c};
  }

  lemma {:induction false} DesertedRun(s: Sys, ls: seq<Label>)
    requires Inv(s) && AllSealed(s) && ValidRun(s, ls) && Enabled(s, RecvClosed)
    requires forall l | l in ls :: !l.IsServer() && !l.Join?
    ensures Enabled(Run(s, ls), RecvClosed)
    decreases |ls|
  {
    if ls != [] {
      assert ls[0] in ls && forall l | l in ls[1..] :: l in ls;
      DesertedStep(s, ls[0]);
      StepInv(s, ls[0]);
      SealedStep(s, ls[0]);
      hide Step, Inv, AllSealed, Deserted;
      DesertedRun(Step(s, ls[0]), ls[1..]);
    }
  }

  /** No call opens a sender again. */
  lemma CallStaysClosed(c: Client, net: Net, l: Label)
    requires l.IsCall() && !c.cmd.open
    ensures !CallStep(c, net, l).client.cmd.open
  {
    match l
    case CallWrite(c_, k, buf, g) => hide PollExecute; PollKeepsOpen(c, net, c_, k, State0(Some(Write(buf))), g);
    case CallFlush(c_, k, g) => hide PollExecute; PollKeepsOpen(c, net, c_, k, State0(Some(Flush)), g);
    case CallReady(c_, k, g, h) => ReadyStaysClosed(c, net, c_, k, g, h); hide PollReady;
    case CallWriteChunk(c_, k, d, g, h) => ReadyStaysClosed(c, net, c_, k, g, h); hide PollReady;
    case CallStartSend(c_, d) =>
    case CallClose(c_, k, g, h) =>
      ReadyStaysClosed(if c.cmd.IsClosed() then c else c.(cmd := c.cmd.Close()), net, c_, k, g, h);
      hide PollReady;
  }

  lemma PollKeepsOpen(c: Client, net: Net, me: nat, key: nat, first: Command, g: bool)
    requires !c.cmd.open
    ensures !PollExecute(if key in c.pending then c.pending[key] else first, c.cmd, net, me, key, g).sender.open
  {
  }

  lemma ReadyStaysClosed(c: Client, net: Net, me: nat, key: nat, g: bool, h: bool)
    requires !c.cmd.open
    ensures !PollReady(c, net, me, key, g, h).client.cmd.open
  {
    var first := if net.wr.Free() > 0 then Terminated else State0(Some(Ready));
    var c1 := if key in c.pending then c else Insert(c, key, first);
    PollKeepsOpen(c, net, me, key, first, g);
    ReadyCases(c, c1, net, me, key, g, h);
    hide PollReady, PollExecute;
  }

  /**
   From the call of `poll_close` on, that call included, a client sends at most
   one more request, and only if it held a slot of the command channel before.
   */
  lemma CloseEndsRequests(s: Sys, l: Label, ls: seq<Label>)
    requires Reachable(s) && l.CallClose? && Fine(s, l) && ValidRun(Step(s, l), ls) && NoJoin(ls, l.c)
    ensures SentBy(Run(Step(s, l), ls).net.tickets, l.c)
         <= SentBy(s.net.tickets, l.c) + if l.c in s.net.cmd.holders then 1 else 0
  {
    ReachableInv(s);
    ReachableSealed(s);
    assert SoundClient(s.clients[l.c], s.net, l.c);
    CloseShuts(s.clients[l.c], s.net, l);
    StepOwners(s, l);
    StepInv(s, l);
    SentMore(s.net.tickets, Step(s, l).net.tickets, l.c);
    var s1 := Step(s, l);
    hide CallStep, SentBy, Inv, SameOwners, Run, ValidRun;
    ChargeRun(s1, ls, l.c);
  }

  lemma ReachableSealed(s: Sys)
    requires Reachable(s)
    ensures AllSealed(s)
  {
    var cmdCap: nat, wrCap: nat, ls :| ValidRun(Init(cmdCap, wrCap), ls) && s == Run(Init(cmdCap, wrCap), ls);
    SealedRun(Init(cmdCap, wrCap), ls);
  }
}
