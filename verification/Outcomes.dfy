/** What each call of a client returns, exactly, and runs in which the calls succeed and fail. */
module Outcomes {
  import opened Basics
  import opened Channels
  import opened Commands
  import opened Clients
  import opened Server
  import opened Actor
  import opened CallEffects
  import opened Invariant
  import opened Evolution
  import opened Handshake

  /** A poll of a command fails. */
  predicate CommandFails(cmd: Command, sender: PollSender, net: Net) {
    match cmd
    case State0(_) => Refuses(sender, net.gone)
    case State1(id) => net.ShotOf(id).Dropped?
    case Terminated => false
  }

  /** A command has its answer `r`. */
  predicate HasAnswer(cmd: Command, net: Net, r: Response) {
    cmd.State1? && net.ShotOf(cmd.recv) == Filled(r)
  }

  /** The command that a call polls: the one under its key, or a new one. */
  function Entry(c: Client, key: nat, initial: Command): Command {
    if key in c.pending then c.pending[key] else initial
  }

  lemma AdvanceOutcome(c: Client, net: Net, me: nat, key: nat, g: bool)
    requires Consistent(c, net, me) && key in c.pending
    ensures var out := Advance(c, net, me, key, g).2;
            && (out.Failure? <==> CommandFails(c.pending[key], c.cmd, net))
            && (forall r :: out == Success(r) <==> HasAnswer(c.pending[key], net, r))
  {
    var cmd := c.pending[key];
    assert Sound(cmd, net, me, key);
    if cmd.State0? {
      State0Moves(cmd.msg.value, c.cmd, net, me, key, g);
      State0Fails(cmd.msg.value, c.cmd, net, me, key, g);
      hide PollExecute;
    }
  }

  lemma State0Fails(q: Request, s: PollSender, net: Net, me: nat, key: nat, g: bool)
    requires net.cmd.Within() && net.wr.Within() && (s.permit.Reserved? <==> me in net.cmd.holders)
    ensures PollExecute(State0(Some(q)), s, net, me, key, g).out.Failure? <==> Refuses(s, net.gone)
  {
    var v := Reserve(s, net.cmd, me, net.gone, g);
    ReserveMoves(s, net.cmd, me, net.gone, g);
    if v.out == Granted {
      EnqueueMoves(q, v.sender, net, v.chan, me, key);
      hide Enqueue, Moves, ChanMove;
    }
  }

  /** A stored write that has its answer is told how much it had asked to write. */
  lemma WriteOutcome(s: Sys, c: nat, k: nat, buf: Bytes, g: bool)
    requires Reachable(s) && c in s.clients
    ensures var out, e := Result(s, CallWrite(c, k, buf, g)), Entry(s.clients[c], k, State0(Some(Write(buf))));
            && (forall n :: out == Wrote(n) <==> HasAnswer(e, s.net, Written(n)))
            && (forall n :: out == Wrote(n) ==> exists b :: s.net.tickets[e.recv].req == Write(b) && |b| == n)
            && (out == Failed <==> CommandFails(e, s.clients[c].cmd, s.net))
            && out != Done
  {
    ReachableInv(s);
    var client, net := s.clients[c], s.net;
    assert SoundClient(client, net, c);
    var c1 := if k in client.pending then client else Insert(client, k, State0(Some(Write(buf))));
    AdvanceOutcome(c1, net, c, k, g);
    var e := c1.pending[k];
    hide Advance, Inv, CommandFails;
    if e.State1? && net.ShotOf(e.recv).Filled? {
      AnswerFits(s, e.recv);
    }
  }

  lemma AnswerFits(s: Sys, id: nat)
    requires AllHonest(s.srv, s.net) && s.net.ShotOf(id).Filled?
    ensures id < |s.net.tickets| && Answers(s.net.ShotOf(id).r, s.net.tickets[id].req)
    ensures forall n ::
              s.net.ShotOf(id) == Filled(Written(n)) ==> exists b :: s.net.tickets[id].req == Write(b) && |b| == n
  {
    assert Honest(s.net.tickets[id], Left(s.srv));
  }

  lemma FlushOutcome(s: Sys, c: nat, k: nat, g: bool)
    requires Reachable(s) && c in s.clients
    ensures var out, e := Result(s, CallFlush(c, k, g)), Entry(s.clients[c], k, State0(Some(Flush)));
            && (out == Done <==> HasAnswer(e, s.net, FlushDone))
            && (out == Failed <==> CommandFails(e, s.clients[c].cmd, s.net))
  {
    ReachableInv(s);
    var client := s.clients[c];
    assert SoundClient(client, s.net, c);
    var c1 := if k in client.pending then client else Insert(client, k, State0(Some(Flush)));
    AdvanceOutcome(c1, s.net, c, k, g);
    hide Advance, Inv, CommandFails;
  }

  /** The command that `poll_ready` polls. */
  function ReadyEntry(c: Client, net: Net, key: nat): Command {
    Entry(c, key, if |net.wr.queue| + |net.wr.holders| < net.wr.cap then Terminated else State0(Some(Ready)))
  }

  /** `poll_ready` finds no entry and no sender. */
  predicate NoSender(c: Client, key: nat) {
    key !in c.pending && !c.wr.open
  }

  /** `poll_ready` gets to its second half. */
  predicate Passes(cmd: Command, net: Net) {
    cmd.Terminated? || HasAnswer(cmd, net, ReadyDone)
  }

  predicate ReadyFails(c: Client, net: Net, key: nat) {
    var e := ReadyEntry(c, net, key);
    NoSender(c, key) || CommandFails(e, c.cmd, net) || (Passes(e, net) && Refuses(c.wr, net.gone))
  }

  predicate ReadySucceeds(c: Client, net: Net, key: nat, h: bool) {
    !NoSender(c, key) && Passes(ReadyEntry(c, net, key), net) && Grants(c.wr, net.wr, net.gone, h)
  }

  lemma ReadyOutcome(c: Client, net: Net, me: nat, key: nat, g: bool, h: bool)
    requires Consistent(c, net, me)
    ensures var out := PollReady(c, net, me, key, g, h).out;
            && (out == Done <==> ReadySucceeds(c, net, key, h))
            && (out == Failed <==> ReadyFails(c, net, key))
  {
    var c1 := if key in c.pending then c
              else Insert(c, key, if net.wr.Free() > 0 then Terminated else State0(Some(Ready)));
    assert SoundClient(c1, net, me);
    ReadyCases(c, c1, net, me, key, g, h);
    AdvanceOutcome(c1, net, me, key, g);
    AdvanceMoves(c1, net, me, key, g);
    var (c2, net2, out) := Advance(c1, net, me, key, g);
    ReserveOutcome(c1, net, me, key, h);
    ReserveOutcome(c2, net2, me, key, h);
    assert c2.wr == c.wr && net2.wr == net.wr && net2.gone == net.gone by {
      hide SoundClient, TicketsMove, ChanMove, Advance;
    }
    hide PollReady, ReserveWrite, Advance, CommandFails, SoundClient, Advanced, Refuses, Grants;
  }

  lemma ReserveOutcome(c: Client, net: Net, me: nat, key: nat, h: bool)
    ensures var out := ReserveWrite(c, net, me, key, h).out;
            (out == Done <==> Grants(c.wr, net.wr, net.gone, h)) && (out == Failed <==> Refuses(c.wr, net.gone))
  {
  }

  /** The three calls that are built on `poll_ready`. */
  lemma ReadyCallsOutcome(s: Sys, l: Label)
    requires Reachable(s) && l.IsCall() && l.c in s.clients
    requires l.CallReady? || l.CallWriteChunk? || l.CallClose?
    ensures var c, out := s.clients[l.c], Result(s, l);
            var c1 := if l.CallClose? && !c.cmd.IsClosed() then c.(cmd := c.cmd.Close()) else c;
            && (out == Done <==> ReadySucceeds(c1, s.net, l.k, l.h))
            && (out == Failed <==> ReadyFails(c1, s.net, l.k))
  {
    ReachableInv(s);
    var c := s.clients[l.c];
    assert SoundClient(c, s.net, l.c);
    var c1 := if l.CallClose? && !c.cmd.IsClosed() then c.(cmd := c.cmd.Close()) else c;
    assert SoundClient(c1, s.net, l.c);
    ReadyOutcome(c1, s.net, l.c, l.k, l.g, l.h);
    if l.CallWriteChunk? {
      ReadyMoves(c, s.net, l.c, l.k, l.g, l.h);
    }
    hide PollReady, ReadyFails, ReadySucceeds, Inv, SoundClient, Moves;
  }

  /**
   `poll_close` closes the command sender before it asks for room in the datagram
   channel. With no operation under its key and no slot of the command channel in
   hand, it fails exactly if it needs to ask (the channel is full) or could not
   have a slot anyway; a slot of the datagram channel that the client holds
   already does not help.
   */
  lemma CloseFailsWhenFull(s: Sys, c: nat, k: nat, g: bool, h: bool)
    requires Reachable(s) && c in s.clients && k !in s.clients[c].pending
    requires s.clients[c].cmd.open && s.clients[c].cmd.permit.Idle?
    ensures var client := s.clients[c];
            Result(s, CallClose(c, k, g, h)) == Failed <==>
              !client.wr.open || |s.net.wr.queue| + |s.net.wr.holders| >= s.net.wr.cap || Refuses(client.wr, s.net.gone)
  {
    ReadyCallsOutcome(s, CallClose(c, k, g, h));
    hide Reachable, Result;
  }

  /* Runs. */

  /** While the server runs, a writer of one datagram cannot close: the channel of capacity 1 is full. */
  lemma CloseCanFail(k: nat, d: Bytes, g: bool, h: bool) returns (s: Sys)
    ensures Reachable(s) && s.srv.pc == AtSelect && 0 in s.clients && s.net.accepted == [d]
    ensures Result(s, CallClose(0, k, g, h)) == Failed
  {
    s := WriterWrites(k, d);
    CloseFailsWhenFull(s, 0, k, g, h);
    hide Reachable, Result;
  }

  /** A run in which a flush succeeds, with a datagram to flush. */
  lemma FlushCanSucceed(k: nat, d: Bytes) returns (s: Sys)
    ensures Reachable(s) && 0 in s.clients && s.net.accepted == [d] == Departed(s.srv)
    ensures Result(s, CallFlush(0, k, true)) == Done
  {
    var s2 := WriterWrites(k, d);
    var s3 := FlushAsked(s2, k, d);
    ReachableStep(s3, RecvRequest);
    var s4 := Step(s3, RecvRequest);
    assert s4.srv == INIT.(pc := AtDrain, flush := [0]);
    assert s4.net == Net(Chan([], {}, 1), Chan([d], {}, 1), [Ticket(Flush, Empty, 0, k, 1)], false, [d]);
    s := FlushServed(s4, k, d);
    FlushOutcome(s, 0, k, true);
    hide Result;
  }

  lemma FlushAsked(s2: Sys, k: nat, d: Bytes) returns (s: Sys)
    requires Reachable(s2)
    requires s2 == Sys(INIT, Net(Chan([], {}, 1), Chan([d], {}, 1), [], false, [d]), map[0 := NEW_CLIENT])
    ensures Reachable(s)
    ensures s == Sys(INIT, Net(Chan([0], {}, 1), Chan([d], {}, 1), [Ticket(Flush, Empty, 0, k, 1)], false, [d]),
                     map[0 := NEW_CLIENT.(pending := map[k := State1(0)])])
  {
    var l := CallFlush(0, k, true);
    var c := Insert(NEW_CLIENT, k, State0(Some(Flush)));
    assert {} + {0} - {0} == {};
    var x := PollExecute(State0(Some(Flush)), NEW_CLIENT.cmd, s2.net, 0, k, true);
    assert x == Exec(State1(0), NEW_CLIENT.cmd,
                     s2.net.(cmd := Chan([0], {}, 1), tickets := [Ticket(Flush, Empty, 0, k, 1)]), Pending);
    assert c.pending[k := State1(0)] == map[k := State1(0)];
    ReachableStep(s2, l);
    s := Step(s2, l);
    hide Reachable, PollExecute;
  }

  lemma FlushServed(s4: Sys, k: nat, d: Bytes) returns (s: Sys)
    requires Reachable(s4) && s4.srv == INIT.(pc := AtDrain, flush := [0])
    requires s4.net == Net(Chan([], {}, 1), Chan([d], {}, 1), [Ticket(Flush, Empty, 0, k, 1)], false, [d])
    requires s4.clients == map[0 := NEW_CLIENT.(pending := map[k := State1(0)])]
    ensures Reachable(s) && s.clients == s4.clients && s.net.accepted == [d] == Departed(s.srv)
    ensures s.net.ShotOf(0) == Filled(FlushDone)
  {
    assert s4.net.FillAll([], ReadyDone).tickets == s4.net.tickets;
    assert [d][1..] == [] && [] + [d] == [d];
    ReachableStep(s4, TryWrite);
    var s5 := Step(s4, TryWrite);
    assert s5.srv == INIT.(pc := AtDrain, flush := [0], write := [d]);
    assert s5.net == s4.net.(wr := Chan([], {}, 1));
    ReachableStep(s5, TryWrite);
    s := Step(s5, TryWrite);
    hide Reachable;
  }
}
