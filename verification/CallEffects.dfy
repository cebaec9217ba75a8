/** What one call of a client may change, and what it keeps. */
module CallEffects {
  import opened Basics
  import opened Channels
  import opened Commands
  import opened Clients
  import opened Actor

  /** One client's use of a channel: other clients' slots stay, and the bound holds. */
  ghost predicate ChanMove<T>(ch: Chan<T>, ch': Chan<T>, me: nat) {
    && ch'.cap == ch.cap
    && ch'.holders - {me} == ch.holders - {me}
    && ch.queue <= ch'.queue
    && ch'.Within()
  }

  /** A ticket stays, or its owner has used its answer up. */
  ghost predicate TicketMove(t: Ticket, t': Ticket, me: nat, key: nat) {
    t' == t || (t.owner == me && t.key == key && (t.shot.Filled? || t.shot.Dropped?) && t' == t.(shot := t.shot.Used()))
  }

  ghost predicate TicketsMove(net: Net, net': Net, me: nat, key: nat) {
    && |net.tickets| <= |net'.tickets| <= |net.tickets| + 1
    && (forall i | 0 <= i < |net.tickets| :: TicketMove(net.tickets[i], net'.tickets[i], me, key))
    && (|net'.tickets| > |net.tickets| ==>
          var t := net'.tickets[|net.tickets|];
          t.shot == Empty && t.owner == me && t.key == key && t.mark == |net.accepted|)
    && net'.cmd.queue == net.cmd.queue + (if |net'.tickets| > |net.tickets| then [|net.tickets|] else [])
  }

  ghost predicate Moves(net: Net, net': Net, me: nat, key: nat) {
    && TicketsMove(net, net', me, key)
    && net'.gone == net.gone
    && ChanMove(net.cmd, net'.cmd, me)
    && ChanMove(net.wr, net'.wr, me)
    && net'.accepted == net.accepted + net'.wr.queue[|net.wr.queue|..]
  }

  /** A client and the channels it uses fit together. */
  ghost predicate Consistent(c: Client, net: Net, me: nat) {
    SoundClient(c, net, me) && net.cmd.Within() && net.wr.Within()
  }

  lemma ReserveMoves<T>(s: PollSender, ch: Chan<T>, me: nat, gone: bool, grant: bool)
    requires ch.Within() && (s.permit.Reserved? <==> me in ch.holders)
    ensures var v := Reserve(s, ch, me, gone, grant);
            && ChanMove(ch, v.chan, me) && v.chan.queue == ch.queue
            && (v.sender.permit.Reserved? <==> me in v.chan.holders)
            && (v.out == Granted <==> v.sender.permit.Reserved?)
            && v.sender.open == s.open
  {
  }

  lemma SendMoves<T>(s: PollSender, ch: Chan<T>, me: nat, item: T)
    requires ch.Within() && (s.permit.Reserved? <==> me in ch.holders)
    ensures var w := SendItem(s, ch, me, item);
            && ChanMove(ch, w.chan, me)
            && w.chan.queue == ch.queue + (if w.out == Sent then [item] else [])
            && (w.sender.permit.Reserved? <==> me in w.chan.holders)
            && (w.out == Sent <==> s.permit.Reserved?)
  {
  }

  /** The effect of polling the command under `key`. */
  ghost predicate Advanced(c: Client, net: Net, me: nat, key: nat, c': Client, net': Net, out: Outcome) {
    && Moves(net, net', me, key) && net'.wr == net.wr
    && SoundClient(c', net', me)
    && c'.wr == c.wr
    && c'.pending.Keys == c.pending.Keys
    && (forall k :: k in c.pending && k != key ==> c'.pending[k] == c.pending[k])
  }

  lemma AnswerMoves(id: nat, s: PollSender, net: Net, me: nat, key: nat)
    requires Sound(State1(id), net, me, key) && net.cmd.Within() && net.wr.Within()
    ensures var x := PollAnswer(id, s, net);
            && Moves(net, x.net, me, key) && x.net.wr == net.wr && x.net.cmd == net.cmd && x.sender == s
            && Sound(x.cmd, x.net, me, key)
            && (x.out.Failure? ==> x.out.e == RecvError)
            && (x.out == Panic <==> net.ShotOf(id).Spent?)
  {
  }

  /** A command with its request sends it when a slot is granted, and never fails for lack of one. */
  lemma State0Moves(q: Request, s: PollSender, net: Net, me: nat, key: nat, grant: bool)
    requires net.cmd.Within() && net.wr.Within() && (s.permit.Reserved? <==> me in net.cmd.holders)
    ensures var x := PollExecute(State0(Some(q)), s, net, me, key, grant);
            && Moves(net, x.net, me, key) && x.net.wr == net.wr
            && (x.sender.permit.Reserved? <==> me in x.net.cmd.holders)
            && Sound(x.cmd, x.net, me, key)
            && (x.out == Pending || x.out == Failure(SendError))
  {
    ReserveMoves(s, net.cmd, me, net.gone, grant);
    var v := Reserve(s, net.cmd, me, net.gone, grant);
    if v.out == Granted {
      hide Enqueue, Moves, Reserve;
      EnqueueMoves(q, v.sender, net, v.chan, me, key);
    }
  }

  lemma EnqueueMoves(q: Request, s: PollSender, net: Net, ch: Chan<nat>, me: nat, key: nat)
    requires ChanMove(net.cmd, ch, me) && ch.queue == net.cmd.queue && net.wr.Within()
    requires s.permit.Reserved? && me in ch.holders
    ensures var x := Enqueue(q, s, net.(cmd := ch), me, key);
            && Moves(net, x.net, me, key) && x.net.wr == net.wr
            && (x.sender.permit.Reserved? <==> me in x.net.cmd.holders)
            && x.cmd == State1(|net.tickets|) && Sound(x.cmd, x.net, me, key)
            && x.out == Pending && x.net.ShotOf(|net.tickets|) == Empty
  {
    SendMoves(s, ch, me, |net.tickets|);
    hide SendItem;
  }

  lemma ExecuteMoves(c: Client, net: Net, me: nat, key: nat, grant: bool)
    requires Consistent(c, net, me) && key in c.pending
    ensures var x := PollExecute(c.pending[key], c.cmd, net, me, key, grant);
            && Moves(net, x.net, me, key) && x.net.wr == net.wr
            && (x.sender.permit.Reserved? <==> me in x.net.cmd.holders)
            && Sound(x.cmd, x.net, me, key)
            && (x.out.Failure? ==> x.out.e != NoRequest)
            && (x.out == Panic <==>
                  c.pending[key].Terminated? || (c.pending[key].State1? && net.ShotOf(c.pending[key].recv).Spent?))
  {
    var cmd := c.pending[key];
    assert Sound(cmd, net, me, key);
    match cmd
    case State0(msg) => State0Moves(msg.value, c.cmd, net, me, key, grant);
    case State1(id) => AnswerMoves(id, c.cmd, net, me, key);
    case Terminated => NoMoves(net, me, key);
  }

  lemma NoMoves(net: Net, me: nat, key: nat)
    requires net.cmd.Within() && net.wr.Within()
    ensures Moves(net, net, me, key)
  {
  }

  lemma SoundMoves(c: Client, net: Net, net': Net, me: nat, key: nat)
    requires forall k :: k in c.pending && k != key ==> Sound(c.pending[k], net, me, k)
    requires TicketsMove(net, net', me, key)
    ensures forall k :: k in c.pending && k != key ==> Sound(c.pending[k], net', me, k)
  {
    forall k | k in c.pending && k != key
      ensures Sound(c.pending[k], net', me, k)
    {
      assert Sound(c.pending[k], net, me, k);
      if c.pending[k].State1? {
        assert TicketMove(net.tickets[c.pending[k].recv], net'.tickets[c.pending[k].recv], me, key);
      }
    }
  }

  lemma AdvanceMoves(c: Client, net: Net, me: nat, key: nat, grant: bool)
    requires Consistent(c, net, me) && key in c.pending
    ensures var (c', net', out) := Advance(c, net, me, key, grant);
            Advanced(c, net, me, key, c', net', out)
  {
    var x := PollExecute(c.pending[key], c.cmd, net, me, key, grant);
    ExecuteMoves(c, net, me, key, grant);
    SoundMoves(c, net, x.net, me, key);
  }

  /** A call by `me` under `key`. */
  ghost predicate CallMoves(net: Net, x: Call, me: nat, key: nat) {
    Moves(net, x.net, me, key) && SoundClient(x.client, x.net, me)
  }

  lemma WriteMoves(c: Client, net: Net, me: nat, key: nat, buf: Bytes, grant: bool)
    requires Consistent(c, net, me)
    ensures CallMoves(net, PollWrite(c, net, me, key, buf, grant), me, key)
  {
    AdvanceMoves(if key in c.pending then c else Insert(c, key, State0(Some(Write(buf)))), net, me, key, grant);
  }

  lemma FlushMoves(c: Client, net: Net, me: nat, key: nat, grant: bool)
    requires Consistent(c, net, me)
    ensures CallMoves(net, PollFlush(c, net, me, key, grant), me, key)
  {
    AdvanceMoves(if key in c.pending then c else Insert(c, key, State0(Some(Flush))), net, me, key, grant);
  }

  lemma ReserveWriteMoves(c: Client, net: Net, me: nat, key: nat, grant: bool)
    requires Consistent(c, net, me) && key in c.pending
    ensures var x := ReserveWrite(c, net, me, key, grant);
            && CallMoves(net, x, me, key) && x.net == net.(wr := x.net.wr)
            && x.net.wr.queue == net.wr.queue
            && (x.out == Done ==> x.client.wr.permit.Reserved?)
  {
    ReserveMoves(c.wr, net.wr, me, net.gone, grant);
  }

  /** Both halves of `poll_ready`, one after the other. */
  lemma MovesThenReserve(net: Net, net2: Net, net3: Net, me: nat, key: nat)
    requires Moves(net, net2, me, key) && net2.wr == net.wr
    requires Moves(net2, net3, me, key) && net3 == net2.(wr := net3.wr) && net3.wr.queue == net2.wr.queue
    ensures Moves(net, net3, me, key)
  {
  }

  lemma CommandThenReserve(c: Client, net: Net, me: nat, key: nat, grant: bool, grantWr: bool)
    requires Consistent(c, net, me) && key in c.pending
    ensures var (c2, net2, out) := Advance(c, net, me, key, grant);
            var x := ReserveWrite(c2, net2, me, key, grantWr);
            && Moves(net, net2, me, key) && SoundClient(c2, net2, me)
            && net2.wr == net.wr && net2.accepted == net.accepted
            && CallMoves(net, x, me, key)
            && x.net.wr.queue == net.wr.queue && x.net.accepted == net.accepted
            && (x.out == Done ==> x.client.wr.permit.Reserved?)
  {
    AdvanceMoves(c, net, me, key, grant);
    var (c2, net2, out) := Advance(c, net, me, key, grant);
    assert key in c2.pending && net2.wr.queue[|net.wr.queue|..] == [];
    hide Advance, ReserveWrite, TicketsMove, ChanMove;
    WithinMoves(net, net2, me, key);
    ReserveWriteMoves(c2, net2, me, key, grantWr);
    MovesThenReserve(net, net2, ReserveWrite(c2, net2, me, key, grantWr).net, me, key);
  }

  /** Where `poll_ready` can end: at once, in the second half, or with its command unfinished. */
  lemma ReadyCases(c: Client, c1: Client, net: Net, me: nat, key: nat, grant: bool, grantWr: bool)
    requires c1 == if key in c.pending then c
                   else Insert(c, key, if net.wr.Free() > 0 then Terminated else State0(Some(Ready)))
    ensures var x := PollReady(c, net, me, key, grant, grantWr);
            if key !in c.pending && !c.wr.open then x == Call(c, net, Failed)
            else if c1.pending[key].Terminated? then x == ReserveWrite(c1, net, me, key, grantWr)
            else
              var (c2, net2, out) := Advance(c1, net, me, key, grant);
              if out.Success? && out.r.ReadyDone? then x == ReserveWrite(c2, net2, me, key, grantWr)
              else x == Call(c2, net2, x.out) && x.out != Done && (x.out == Failed <==> out.Failure?)
  {
    hide Advance, ReserveWrite;
    var x := PollReady(c, net, me, key, grant, grantWr);
    if !(key !in c.pending && !c.wr.open) && !c1.pending[key].Terminated? {
      var (c2, net2, out) := Advance(c1, net, me, key, grant);
      match out
      case Pending => assert x == Call(c2, net2, Waiting);
      case Failure(e) => assert x == Call(c2, net2, Failed);
      case Panic => assert x == Call(c2, net2, Panicked);
      case Success(r) =>
        match r
        case ReadyDone => assert x == ReserveWrite(c2, net2, me, key, grantWr);
        case FlushDone => assert x == Call(c2, net2, Panicked);
        case Written(n) => assert x == Call(c2, net2, Panicked);
    }
  }

  lemma ReadyMoves(c: Client, net: Net, me: nat, key: nat, grant: bool, grantWr: bool)
    requires Consistent(c, net, me)
    ensures var x := PollReady(c, net, me, key, grant, grantWr);
            && CallMoves(net, x, me, key)
            && x.net.wr.queue == net.wr.queue && x.net.accepted == net.accepted
            && (x.out == Done ==> x.client.wr.permit.Reserved?)
  {
    NoMoves(net, me, key);
    var c1 := if key in c.pending then c
              else Insert(c, key, if net.wr.Free() > 0 then Terminated else State0(Some(Ready)));
    assert SoundClient(c1, net, me);
    ReadyCases(c, c1, net, me, key, grant, grantWr);
    hide PollReady, Advance, ReserveWrite, Moves, SoundClient;
    if key in c.pending || c.wr.open {
      if c1.pending[key].Terminated? {
        ReserveWriteMoves(c1, net, me, key, grantWr);
      } else {
        CommandThenReserve(c1, net, me, key, grant, grantWr);
      }
    }
  }

  lemma WithinMoves(net: Net, net': Net, me: nat, key: nat)
    requires Moves(net, net', me, key)
    ensures net'.cmd.Within() && net'.wr.Within()
  {
  }

  lemma StartSendMoves(c: Client, net: Net, me: nat, key: nat, dgram: Bytes)
    requires Consistent(c, net, me)
    ensures CallMoves(net, StartSend(c, net, me, dgram), me, key)
    ensures StartSend(c, net, me, dgram).out == Done <==> c.wr.permit.Reserved?
  {
    SendMoves(c.wr, net.wr, me, dgram);
  }

  lemma WriteChunkMoves(c: Client, net: Net, me: nat, key: nat, dgram: Bytes, grant: bool, grantWr: bool)
    requires Consistent(c, net, me)
    ensures CallMoves(net, PollWriteChunk(c, net, me, key, dgram, grant, grantWr), me, key)
  {
    ReadyMoves(c, net, me, key, grant, grantWr);
    var x := PollReady(c, net, me, key, grant, grantWr);
    if x.out == Done {
      StartSendMoves(x.client, x.net, me, key, dgram);
    }
  }

  /** The key of a call; `start_send` has none. */
  function KeyOf(l: Label): nat
    requires l.IsCall()
  {
    if l.CallStartSend? then 0 else l.k
  }

  lemma CallStepMoves(c: Client, net: Net, l: Label)
    requires l.IsCall() && Consistent(c, net, l.c)
    ensures CallMoves(net, CallStep(c, net, l), l.c, KeyOf(l))
  {
    match l
    case CallWrite(c_, k, buf, g) => WriteMoves(c, net, c_, k, buf, g);
    case CallReady(c_, k, g, h) => ReadyMoves(c, net, c_, k, g, h);
    case CallFlush(c_, k, g) => FlushMoves(c, net, c_, k, g);
    case CallWriteChunk(c_, k, d, g, h) => WriteChunkMoves(c, net, c_, k, d, g, h);
    case CallStartSend(c_, d) => StartSendMoves(c, net, c_, 0, d);
    case CallClose(c_, k, g, h) =>
      var c1 := if c.cmd.IsClosed() then c else c.(cmd := c.cmd.Close());
      ReadyMoves(c1, net, c_, k, g, h);
  }
}
