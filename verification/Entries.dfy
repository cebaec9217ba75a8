/** What a call leaves in its client's map, exactly, and how long it stays there. */
module Entries {
  import opened Basics
  import opened Channels
  import opened Commands
  import opened Clients
  import opened Actor
  import opened CallEffects
  import opened Invariant
  import opened Outcomes
  import opened Completion
  import opened NoPanic

  /** Nothing happens under other keys. */
  predicate OthersSame(c: Client, c': Client, key: nat) {
    c'.pending - {key} == c.pending - {key}
  }

  predicate Holds(c: Client, key: nat, cmd: Command) {
    key in c.pending && c.pending[key] == cmd
  }

  /** The poll of a command that does not send and gets no answer changes nothing at all. */
  lemma AdvanceEntry(c: Client, net: Net, me: nat, key: nat, g: bool)
    requires Consistent(c, net, me) && key in c.pending
    ensures var (c', net', out) := Advance(c, net, me, key, g);
            var e := c.pending[key];
            && OthersSame(c, c', key) && key in c'.pending
            && c'.wr == c.wr && net'.wr == net.wr && net'.gone == net.gone && net'.accepted == net.accepted
            && (e.State0? && Grants(c.cmd, net.cmd, net.gone, g) ==>
                  && out == Pending && c'.pending[key] == State1(|net.tickets|)
                  && net'.tickets == net.tickets + [Ticket(e.msg.value, Empty, me, key, |net.accepted|)])
            && (e.State0? && Refuses(c.cmd, net.gone) ==>
                  out.Failure? && c'.pending[key] == e && net'.tickets == net.tickets)
            && (e.State0? && !Grants(c.cmd, net.cmd, net.gone, g) && !Refuses(c.cmd, net.gone) ==>
                  out == Pending && c' == c && net' == net)
            && (e.State1? && net.ShotOf(e.recv).Empty? ==> out == Pending && c' == c && net' == net)
            && (e.State1? && net.ShotOf(e.recv).Dropped? ==>
                  && out.Failure? && c'.pending[key] == e
                  && net' == net.SetShot(e.recv, Spent(None)))
            && (e.State1? && net.ShotOf(e.recv).Filled? ==>
                  out == Success(net.ShotOf(e.recv).r) && c'.pending[key] == Terminated)
  {
    assert Sound(c.pending[key], net, me, key);
    assert c.pending[key := c.pending[key]] == c.pending;
  }

  /** A poll returns Pending, and the entry is the one it polled, or it waits for the request just sent. */
  predicate StillPolled(c: Client, net: Net, c': Client, net': Net, me: nat, key: nat, e: Command, g: bool) {
    if e.State0? && Grants(c.cmd, net.cmd, net.gone, g) then
      && Holds(c', key, State1(|net.tickets|)) && e.msg.Some?
      && net'.tickets == net.tickets + [Ticket(e.msg.value, Empty, me, key, |net.accepted|)]
    else
      Holds(c', key, e) && net' == net
  }

  /** The map after `poll_write`. */
  lemma WriteEntry(c: Client, net: Net, me: nat, key: nat, buf: Bytes, g: bool)
    requires Consistent(c, net, me)
    ensures var x, e := PollWrite(c, net, me, key, buf, g), Entry(c, key, State0(Some(Write(buf))));
            && OthersSame(c, x.client, key)
            && (x.out == Waiting ==> StillPolled(c, net, x.client, x.net, me, key, e, g))
            && (x.out.Wrote? || x.out == Failed ==> key !in x.client.pending)
            && x.client.wr == c.wr && x.net.wr == net.wr && x.net.accepted == net.accepted
  {
    var c1 := if key in c.pending then c else Insert(c, key, State0(Some(Write(buf))));
    assert SoundClient(c1, net, me);
    AdvanceEntry(c1, net, me, key, g);
    AdvanceOutcome(c1, net, me, key, g);
    hide Advance, Grants, Refuses, SoundClient;
  }

  /** The map after `poll_flush`. */
  lemma FlushEntry(c: Client, net: Net, me: nat, key: nat, g: bool)
    requires Consistent(c, net, me)
    ensures var x, e := PollFlush(c, net, me, key, g), Entry(c, key, State0(Some(Flush)));
            && OthersSame(c, x.client, key)
            && (x.out == Waiting ==> StillPolled(c, net, x.client, x.net, me, key, e, g))
            && (x.out == Done || x.out == Failed ==> key !in x.client.pending)
            && x.client.wr == c.wr && x.net.wr == net.wr && x.net.accepted == net.accepted
  {
    var c1 := if key in c.pending then c else Insert(c, key, State0(Some(Flush)));
    assert SoundClient(c1, net, me);
    AdvanceEntry(c1, net, me, key, g);
    AdvanceOutcome(c1, net, me, key, g);
    hide Advance, Grants, Refuses, SoundClient;
  }

  /**
   The map after `poll_ready`. Only an error of the command leaves an entry behind:
   the one it polled, with its answer used up if it had waited for one. A refused
   reservation leaves none, and it closes the sender.
   */
  lemma ReadyEntryAfter(c: Client, net: Net, me: nat, key: nat, g: bool, h: bool)
    requires Consistent(c, net, me)
    ensures var x, e := PollReady(c, net, me, key, g, h), ReadyEntry(c, net, key);
            && OthersSame(c, x.client, key)
            && (NoSender(c, key) ==> x.client == c && x.net == net)
            && (x.out == Done ==> key !in x.client.pending)
            && (x.out == Failed && !NoSender(c, key) && CommandFails(e, c.cmd, net) ==>
                  && Holds(x.client, key, e)
                  && (e.State0? ==> x.net.tickets == net.tickets)
                  && (e.State1? ==> x.net == net.SetShot(e.recv, Spent(None))))
            && (x.out == Failed && !CommandFails(e, c.cmd, net) ==> key !in x.client.pending)
            && (x.out == Failed && !CommandFails(e, c.cmd, net) && !NoSender(c, key) ==>
                  x.client.wr.permit.Closed?)
            && (x.out == Waiting && Passes(e, net) ==> Holds(x.client, key, Terminated))
            && (x.out == Waiting && !Passes(e, net) ==> StillPolled(c, net, x.client, x.net, me, key, e, g))
  {
    var c1 := if key in c.pending then c
              else Insert(c, key, if net.wr.Free() > 0 then Terminated else State0(Some(Ready)));
    assert SoundClient(c1, net, me) && c1.pending[key] == ReadyEntry(c, net, key);
    ReadyCases(c, c1, net, me, key, g, h);
    AdvanceEntry(c1, net, me, key, g);
    AdvanceOutcome(c1, net, me, key, g);
    var (c2, net2, out) := Advance(c1, net, me, key, g);
    ReserveEntry(c1, net, me, key, h);
    ReserveEntry(c2, net2, me, key, h);
    hide PollReady, Advance, ReserveWrite, Grants, Refuses, SoundClient, Chan.Free;
  }

  lemma ReserveEntry(c: Client, net: Net, me: nat, key: nat, h: bool)
    requires key in c.pending
    ensures var x := ReserveWrite(c, net, me, key, h);
            && OthersSame(c, x.client, key)
            && (x.out == Waiting ==> x.client.pending == c.pending)
            && (x.out != Waiting ==> key !in x.client.pending)
            && (x.out == Failed ==> x.client.wr.permit.Closed?)
            && (x.out == Waiting || x.out == Done || x.out == Failed)
  {
  }

  /** The command sender that the call polls with: `poll_close` has closed it first. */
  function Caller(s: Sys, l: Label): Client
    requires l.IsCall() && l.c in s.clients
  {
    var c := s.clients[l.c];
    if l.CallClose? && !c.cmd.IsClosed() then c.(cmd := c.cmd.Close()) else c
  }

  /** `poll_write_chunk` and `poll_close` leave what `poll_ready` leaves. */
  lemma ReadyCallsEntry(s: Sys, l: Label)
    requires Reachable(s) && l.IsCall() && l.c in s.clients
    requires l.CallReady? || l.CallWriteChunk? || l.CallClose?
    ensures var x, y := CallStep(s.clients[l.c], s.net, l), PollReady(Caller(s, l), s.net, l.c, l.k, l.g, l.h);
            && Consistent(Caller(s, l), s.net, l.c)
            && x.client.pending == y.client.pending && x.out == y.out && x.net.tickets == y.net.tickets
            && (x.out != Done ==> x == y)
  {
    ReachableInv(s);
    var c := s.clients[l.c];
    assert SoundClient(c, s.net, l.c);
    assert SoundClient(Caller(s, l), s.net, l.c);
    if l.CallWriteChunk? {
      ReadyMoves(c, s.net, l.c, l.k, l.g, l.h);
    }
    hide PollReady, Inv, Moves;
  }

  /**
   After a failure that is not the command's, the key is free: a flush under it does
   not panic. The sender is closed, so a `start_send` then fails and changes nothing.
   */
  lemma RefusedIsClean(s: Sys, l: Label, g: bool, dgram: Bytes)
    requires Reachable(s) && Enabled(s, l) && (l.CallReady? || l.CallWriteChunk? || l.CallClose?)
    requires Result(s, l) == Failed && !CommandFails(ReadyEntry(s.clients[l.c], s.net, l.k), Caller(s, l).cmd, s.net)
    ensures var t := Step(s, l);
            && l.k !in t.clients[l.c].pending
            && Result(t, CallFlush(l.c, l.k, g)) != Panicked
            && (!NoSender(s.clients[l.c], l.k) ==>
                  Result(t, CallStartSend(l.c, dgram)) == Failed && Step(t, CallStartSend(l.c, dgram)) == t)
  {
    ReadyCallsEntry(s, l);
    ReadyEntryAfter(Caller(s, l), s.net, l.c, l.k, l.g, l.h);
    ReachableStep(s, l);
    var t := Step(s, l);
    assert l.k !in t.clients[l.c].pending;
    hide PollReady, Inv, Reachable, CommandFails, StillPolled;
    PanicsIff(t, CallFlush(l.c, l.k, g));
    UnpreparedSendPanics(t, l.c, dgram);
    hide CallStep;
  }

  /* A request that could not be sent yet. */

  /** Client `c` has the request `q` under key `k`, not sent. */
  predicate Unsent(s: Sys, c: nat, k: nat, q: Request) {
    c in s.clients && Holds(s.clients[c], k, State0(Some(q)))
  }

  /** A poll that returns Pending and sent nothing leaves its request as it was. */
  lemma WaitingKeepsRequest(s: Sys, l: Label, q: Request)
    requires Reachable(s) && Enabled(s, l) && l.IsCall() && !l.CallStartSend?
    requires Polled(s, l) == State0(Some(q))
    requires Result(s, l) == Waiting && |Step(s, l).net.tickets| == |s.net.tickets|
    ensures Unsent(Step(s, l), l.c, l.k, q)
  {
    ReachableInv(s);
    var c := s.clients[l.c];
    assert SoundClient(c, s.net, l.c);
    if l.CallWrite? {
      WriteEntry(c, s.net, l.c, l.k, l.buf, l.g);
      hide PollWrite, Inv, Grants;
    } else if l.CallFlush? {
      FlushEntry(c, s.net, l.c, l.k, l.g);
      hide PollFlush, Inv, Grants;
    } else {
      ReadyCallsEntry(s, l);
      ReadyEntryAfter(Caller(s, l), s.net, l.c, l.k, l.g, l.h);
      hide PollReady, CallStep, Inv, Grants;
    }
  }

  lemma UnsentStep(s: Sys, l: Label, c: nat, k: nat, q: Request)
    requires Enabled(s, l) && Unsent(s, c, k, q) && !Disturbs(l, c, k)
    ensures Unsent(Step(s, l), c, k, q)
  {
    if l.IsCall() {
      if l.c == c {
        CallKeeps(s.clients[c], s.net, l, k);
      }
      hide CallStep;
    }
  }

  /** It stays through every run that leaves the operation alone. */
  lemma {:induction false} UnsentRun(s: Sys, ls: seq<Label>, c: nat, k: nat, q: Request)
    requires ValidRun(s, ls) && Unsent(s, c, k, q) && LeftAlone(ls, c, k)
    ensures Unsent(Run(s, ls), c, k, q)
    decreases |ls|
  {
    hide Step, Enabled, Result, Unsent, Disturbs;
    if ls != [] {
      assert ls[0] in ls && forall l | l in ls[1..] :: l in ls;
      UnsentStep(s, ls[0], c, k, q);
      UnsentRun(Step(s, ls[0]), ls[1..], c, k, q);
    }
  }

  /** Two calls of the same operation. */
  predicate SameOperation(l: Label, m: Label) {
    && l.IsCall() && !l.CallStartSend? && m.IsCall() && !m.CallStartSend?
    && m.c == l.c && m.k == l.k
    && (l.CallWrite? <==> m.CallWrite?) && (l.CallFlush? <==> m.CallFlush?)
  }

  /**
   The first poll decides: when a poll could not send, then the next poll of that
   operation, after any run that leaves it alone, polls the same request, whatever
   it is called with.
   */
  lemma FirstPollDecides(s: Sys, l: Label, q: Request, ls: seq<Label>, m: Label)
    requires Reachable(s) && Fine(s, l) && SameOperation(l, m) && Polled(s, l) == State0(Some(q))
    requires Result(s, l) == Waiting && |Step(s, l).net.tickets| == |s.net.tickets|
    requires ValidRun(Step(s, l), ls) && LeftAlone(ls, l.c, l.k)
    ensures var t := Run(Step(s, l), ls); m.c in t.clients && Polled(t, m) == State0(Some(q))
  {
    WaitingKeepsRequest(s, l, q);
    hide Step, Enabled, Result, Reachable;
    UnsentRun(Step(s, l), ls, l.c, l.k, q);
  }

  /**
   So a write that had to wait for a slot sends the buffer of its first poll, and
   the length it returns in the end is that buffer's, whatever the later polls pass.
   */
  lemma FirstBufferIsWritten(s: Sys, l: Label, ls: seq<Label>, m: Label, a: seq<Label>, b: seq<Label>,
                             again: Bytes, g: bool)
    requires Reachable(s) && Fine(s, l) && l.CallWrite? && l.k !in s.clients[l.c].pending
    requires Result(s, l) == Waiting && |Step(s, l).net.tickets| == |s.net.tickets|
    requires ValidRun(Step(s, l), ls) && LeftAlone(ls, l.c, l.k)
    requires m.CallWrite? && m.c == l.c && m.k == l.k
    requires var t := Run(Step(s, l), ls);
             && m.c in t.clients && Grants(t.clients[m.c].cmd, t.net.cmd, t.net.gone, m.g)
             && Enabled(t, m) && ValidRun(Step(t, m), a) && ValidRun(Run(Step(t, m), a), b)
             && Receipts(a) == |t.net.cmd.queue|
    requires LeftAlone(a, l.c, l.k) && LeftAlone(b, l.c, l.k) && b != [] && b[0] == RecvRequest
    ensures var t := Run(Step(s, l), ls);
            && WasSent(t, Step(t, m), l.c, l.k, Write(l.buf))
            && l.c in Run(Run(Step(t, m), a), b).clients
            && Result(Run(Run(Step(t, m), a), b), CallWrite(l.c, l.k, again, g)) == Wrote(|l.buf|)
  {
    var t := Run(Step(s, l), ls);
    assert Polled(s, l) == State0(Some(Write(l.buf)));
    FirstPollDecides(s, l, Write(l.buf), ls, m);
    ReachableStep(s, l);
    ReachableRun(Step(s, l), ls);
    hide Step, Enabled, Result, Reachable, Run, ValidRun, LeftAlone, Grants;
    assert Sends(t, m, Write(l.buf));
    PollSends(t, m, Write(l.buf));
    WriteCompletes(t, m, l.buf, a, b, again, g);
  }
}
