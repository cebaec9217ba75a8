/** What never goes back from one state of a run to a later one. */
module Evolution {
  import opened Basics
  import opened Channels
  import opened Commands
  import opened Clients
  import opened Server
  import opened Actor
  import opened CallEffects
  import opened Invariant

  /** The datagrams that have left the write channel and the waiting slot. */
  function Departed(s: Srv): seq<Bytes> {
    s.acked + s.sent + s.write
  }

  /** An answer is given at most once, stays what it is, and is used up at most once. */
  predicate ShotLater(a: Shot, b: Shot) {
    a == b || (a.Empty? && !b.Empty?) || ((a.Filled? || a.Dropped?) && b == a.Used())
  }

  ghost predicate TicketsLater(net: Net, net': Net) {
    && |net.tickets| <= |net'.tickets|
    && net.accepted <= net'.accepted
    && (forall i | 0 <= i < |net.tickets| ::
          && net'.tickets[i] == net.tickets[i].(shot := net'.tickets[i].shot)
          && ShotLater(net.tickets[i].shot, net'.tickets[i].shot))
    && (forall i | |net.tickets| <= i < |net'.tickets| :: net'.tickets[i].mark >= |net.accepted|)
  }

  /** A command that waits for an answer has waited for it since its request was sent. */
  ghost predicate CommandsLater(s: Sys, s': Sys) {
    forall c, k | c in s'.clients && k in s'.clients[c].pending ::
      Since(s, c, k, s'.clients[c].pending[k])
  }

  ghost predicate Since(s: Sys, c: nat, k: nat, cmd: Command) {
    cmd.State1? && cmd.recv < |s.net.tickets| ==>
      c in s.clients && k in s.clients[c].pending && s.clients[c].pending[k] == cmd
  }

  ghost predicate Later(s: Sys, s': Sys) {
    && TicketsLater(s.net, s'.net)
    && CommandsLater(s, s')
    && Departed(s.srv) <= Departed(s'.srv)
    && s.srv.acked <= s'.srv.acked
  }

  lemma LaterTrans(a: Sys, b: Sys, c: Sys)
    requires Later(a, b) && Later(b, c)
    ensures Later(a, c)
  {
    TicketsLaterTrans(a.net, b.net, c.net);
    forall i, k | i in c.clients && k in c.clients[i].pending
      ensures Since(a, i, k, c.clients[i].pending[k])
    {
      var cmd := c.clients[i].pending[k];
      assert Since(b, i, k, cmd);
      if cmd.State1? && cmd.recv < |a.net.tickets| {
        assert i in b.clients && k in b.clients[i].pending;
        assert Since(a, i, k, b.clients[i].pending[k]);
      }
    }
  }

  lemma TicketsLaterTrans(a: Net, b: Net, c: Net)
    requires TicketsLater(a, b) && TicketsLater(b, c)
    ensures TicketsLater(a, c)
  {
    forall i | 0 <= i < |a.tickets|
      ensures c.tickets[i] == a.tickets[i].(shot := c.tickets[i].shot)
      ensures ShotLater(a.tickets[i].shot, c.tickets[i].shot)
    {
      assert b.tickets[i] == a.tickets[i].(shot := b.tickets[i].shot);
      assert c.tickets[i] == b.tickets[i].(shot := c.tickets[i].shot);
    }
    forall i | |a.tickets| <= i < |c.tickets|
      ensures c.tickets[i].mark >= |a.accepted|
    {
      if i < |b.tickets| {
        assert c.tickets[i] == b.tickets[i].(shot := c.tickets[i].shot);
      }
    }
  }

  /** More has departed, and the acknowledged datagrams are still the first ones. */
  ghost predicate Grows(s: Srv, s': Srv) {
    Departed(s) <= Departed(s') && s.acked <= s'.acked
  }

  lemma TakeWaitingGrows(s: Srv)
    ensures Grows(s, TakeWaiting(s))
  {
    assert Departed(TakeWaiting(s)) == Departed(s) + TakeWaiting(s).write[|s.write|..];
  }

  lemma RequestGrows(s: Srv, net: Net)
    requires net.cmd.queue != []
    ensures Grows(s, OnRequest(s, net).srv)
  {
    var id := net.cmd.queue[0];
    TakeWaitingGrows(s);
    TakeWaitingGrows(s.(ready := s.ready + [id]));
    TakeWaitingGrows(s.(flush := s.flush + [id]));
    assert Departed(s) == Departed(s.(ready := s.ready + [id])) == Departed(s.(flush := s.flush + [id]));
    hide TakeWaiting, Departed;
  }

  lemma TimerGrows(s: Srv)
    ensures Grows(s, OnTimer(s))
  {
    if s.sent == [] {
      TakeWaitingGrows(s);
    } else {
      var s1 := s.(sent := s.sent[1..], cwnd := s.cwnd + |s.sent[0]|, acked := s.acked + [s.sent[0]]);
      assert s.acked + s.sent == s1.acked + s1.sent;
      TakeWaitingGrows(s1);
      assert Departed(s1) == Departed(s);
      hide TakeWaiting, Departed;
    }
  }

  lemma TryRecvGrows(s: Srv, net: Net)
    ensures Grows(s, TryRecv(s, net).srv)
  {
    var s' := TryRecv(s, net).srv;
    assert s'.write == s.write + s'.write[|s.write|..];
    assert Departed(s') == Departed(s) + s'.write[|s.write|..];
  }

  lemma SendGrows(s: Srv)
    ensures Grows(s, SendPhase(s))
  {
    var n := Fitting(s.write, s.cwnd);
    assert s.write == s.write[..n] + s.write[n..];
    assert Departed(SendPhase(s)) == Departed(s);
  }

  lemma DepartedGrows(s: Sys, l: Label)
    requires Enabled(s, l) && l.IsServer()
    ensures Grows(s.srv, Step(s, l).srv)
  {
    match l
    case RecvRequest => RequestGrows(s.srv, s.net); hide OnRequest, Grows;
    case Timer => TimerGrows(s.srv); hide OnTimer, Grows;
    case TryWrite => TryRecvGrows(s.srv, s.net); hide TryRecv, Grows;
    case RefillDgram(open) => SendGrows(s.srv); hide SendPhase;
    case _ =>
  }

  lemma ServerLater(s: Sys, l: Label)
    requires Enabled(s, l) && l.IsServer() && Inv(s)
    ensures Later(s, Step(s, l))
  {
    var s' := Step(s, l);
    DepartedGrows(s, l);
    ServerStepKeeps(s, l);
    assert s'.clients == s.clients;
    hide Step;
    forall i | 0 <= i < |s.net.tickets|
      ensures s'.net.tickets[i] == s.net.tickets[i].(shot := s'.net.tickets[i].shot)
      ensures ShotLater(s.net.tickets[i].shot, s'.net.tickets[i].shot)
    {
      assert ShotSet(s.net.tickets[i], s'.net.tickets[i]);
    }
  }

  /** The commands of a client after a call: those before it, and one with a new ticket. */
  ghost predicate SameCommands(c: Client, net: Net, c': Client) {
    forall k | k in c'.pending :: SameCommand(c, net, k, c'.pending[k])
  }

  ghost predicate SameCommand(c: Client, net: Net, k: nat, cmd: Command) {
    cmd.State1? && cmd.recv < |net.tickets| ==> k in c.pending && c.pending[k] == cmd
  }

  lemma AdvanceCommands(c0: Client, c: Client, net: Net, me: nat, key: nat, grant: bool)
    requires key in c.pending && SameCommands(c0, net, c)
    ensures SameCommands(c0, net, Advance(c, net, me, key, grant).0)
  {
    assert SameCommand(c0, net, key, c.pending[key]);
    forall k | k in c.pending
      ensures SameCommand(c0, net, k, Advance(c, net, me, key, grant).0.pending[k])
    {
      assert SameCommand(c0, net, k, c.pending[k]);
    }
  }

  lemma InsertSame(c: Client, net: Net, key: nat, cmd: Command)
    requires !cmd.State1?
    ensures SameCommands(c, net, c) && SameCommands(c, net, Insert(c, key, cmd))
  {
  }

  lemma RemoveSame(c0: Client, net: Net, c: Client, key: nat)
    requires SameCommands(c0, net, c)
    ensures SameCommands(c0, net, Remove(c, key))
  {
    forall k | k in Remove(c, key).pending
      ensures SameCommand(c0, net, k, Remove(c, key).pending[k])
    {
      assert SameCommand(c0, net, k, c.pending[k]);
    }
  }

  lemma WriteCommands(c: Client, net: Net, me: nat, key: nat, buf: Bytes, grant: bool)
    ensures SameCommands(c, net, PollWrite(c, net, me, key, buf, grant).client)
  {
    InsertSame(c, net, key, State0(Some(Write(buf))));
    var c1 := if key in c.pending then c else Insert(c, key, State0(Some(Write(buf))));
    AdvanceCommands(c, c1, net, me, key, grant);
    RemoveSame(c, net, Advance(c1, net, me, key, grant).0, key);
    hide Advance, SameCommands, Remove;
  }

  lemma FlushCommands(c: Client, net: Net, me: nat, key: nat, grant: bool)
    ensures SameCommands(c, net, PollFlush(c, net, me, key, grant).client)
  {
    InsertSame(c, net, key, State0(Some(Flush)));
    var c1 := if key in c.pending then c else Insert(c, key, State0(Some(Flush)));
    AdvanceCommands(c, c1, net, me, key, grant);
    RemoveSame(c, net, Advance(c1, net, me, key, grant).0, key);
    hide Advance, SameCommands, Remove;
  }

  lemma ReserveWriteCommands(c0: Client, net0: Net, c: Client, net: Net, me: nat, key: nat, grant: bool)
    requires SameCommands(c0, net0, c)
    ensures SameCommands(c0, net0, ReserveWrite(c, net, me, key, grant).client)
  {
    var c1 := c.(wr := Reserve(c.wr, net.wr, me, net.gone, grant).sender);
    assert SameCommands(c0, net0, c1) by {
      forall k | k in c1.pending
        ensures SameCommand(c0, net0, k, c1.pending[k])
      {
        assert SameCommand(c0, net0, k, c.pending[k]);
      }
    }
    RemoveSame(c0, net0, c1, key);
  }

  lemma ReadyCommands(c0: Client, c: Client, net: Net, me: nat, key: nat, grant: bool, grantWr: bool)
    requires c.pending == c0.pending
    ensures SameCommands(c0, net, PollReady(c, net, me, key, grant, grantWr).client)
  {
    var cmd := if net.wr.Free() > 0 then Terminated else State0(Some(Ready));
    InsertSame(c, net, key, cmd);
    var c1 := if key in c.pending then c else Insert(c, key, cmd);
    assert SameCommands(c0, net, c) && SameCommands(c0, net, c1);
    AdvanceCommands(c0, c1, net, me, key, grant);
    ReserveWriteCommands(c0, net, c1, net, me, key, grantWr);
    var (c2, net2, out) := Advance(c1, net, me, key, grant);
    ReserveWriteCommands(c0, net, c2, net2, me, key, grantWr);
    hide Advance, SameCommands, ReserveWrite;
  }

  lemma CallCommands(c: Client, net: Net, l: Label)
    requires l.IsCall()
    ensures SameCommands(c, net, CallStep(c, net, l).client)
  {
    match l
    case CallWrite(c_, k, buf, g) => WriteCommands(c, net, c_, k, buf, g);
    case CallReady(c_, k, g, h) => ReadyCommands(c, c, net, c_, k, g, h); hide PollReady;
    case CallFlush(c_, k, g) => FlushCommands(c, net, c_, k, g);
    case CallWriteChunk(c_, k, d, g, h) => ReadyCommands(c, c, net, c_, k, g, h); hide PollReady;
    case CallStartSend(c_, d) =>
    case CallClose(c_, k, g, h) =>
      var c1 := if c.cmd.IsClosed() then c else c.(cmd := c.cmd.Close());
      ReadyCommands(c, c1, net, c_, k, g, h);
      hide PollReady;
  }

  lemma MovesLater(net: Net, net': Net, me: nat, key: nat)
    requires Moves(net, net', me, key)
    ensures TicketsLater(net, net')
  {
    forall i | 0 <= i < |net.tickets|
      ensures net'.tickets[i] == net.tickets[i].(shot := net'.tickets[i].shot)
      ensures ShotLater(net.tickets[i].shot, net'.tickets[i].shot)
    {
      assert TicketMove(net.tickets[i], net'.tickets[i], me, key);
    }
  }

  lemma CallLater(s: Sys, l: Label)
    requires Enabled(s, l) && l.IsCall() && Inv(s)
    ensures Later(s, Step(s, l))
  {
    var c, s' := s.clients[l.c], Step(s, l);
    CallStepMoves(c, s.net, l);
    MovesLater(s.net, s'.net, l.c, KeyOf(l));
    CallCommands(c, s.net, l);
    hide CallStep, TicketsLater, Moves, SoundClient;
    forall i, k | i in s'.clients && k in s'.clients[i].pending
      ensures Since(s, i, k, s'.clients[i].pending[k])
    {
      if i == l.c {
        assert SameCommand(c, s.net, k, s'.clients[i].pending[k]);
      }
    }
  }

  lemma StepLater(s: Sys, l: Label)
    requires Enabled(s, l) && Inv(s)
    ensures Later(s, Step(s, l))
  {
    if l.IsServer() {
      ServerLater(s, l);
      hide *;
    } else if l.IsCall() {
      CallLater(s, l);
      hide *;
    } else {
      hide Inv;
    }
  }

  /** Along any run. */
  lemma {:induction false} RunLater(s: Sys, ls: seq<Label>)
    requires Inv(s) && ValidRun(s, ls)
    ensures Inv(Run(s, ls)) && Later(s, Run(s, ls))
    decreases |ls|
  {
    if ls != [] {
      hide Inv, Step, Enabled, Result, Later;
      StepInv(s, ls[0]);
      StepLater(s, ls[0]);
      RunLater(Step(s, ls[0]), ls[1..]);
      LaterTrans(s, Step(s, ls[0]), Run(s, ls));
    }
  }
}
