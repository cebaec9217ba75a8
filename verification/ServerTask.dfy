/**
 The server task as it is written: its variables and its nested loops. Other
 threads run between its operations on shared channels, and every iteration is
 shown to be a run of the step system.
 */
module ServerTask {
  import opened Basics
  import opened Channels
  import opened Commands
  import opened Clients
  import opened Server
  import opened Actor
  import opened Invariant
  import opened Guarantees
  import opened Progress
  import opened Notifiers
  import opened Completion
  import opened Reception
  import opened Closing

  /** What `select!` woke up for. */
  datatype Event = TimerFired | RequestArrived | ChannelClosed

  function EventLabel(e: Event): Label {
    match e
    case TimerFired => Timer
    case RequestArrived => RecvRequest
    case ChannelClosed => RecvClosed
  }

  /** `ls` leads from `s` to `t`. */
  ghost predicate Leads(s: Sys, ls: seq<Label>, t: Sys) {
    ValidRun(s, ls) && Run(s, ls) == t
  }

  lemma LeadsOn(s: Sys, ls: seq<Label>, t: Sys, more: seq<Label>, u: Sys)
    requires Leads(s, ls, t) && Leads(t, more, u)
    ensures Leads(s, ls + more, u)
  {
    RunAppend(s, ls, more);
  }

  lemma LeadsStep(s: Sys, ls: seq<Label>, t: Sys, l: Label)
    requires Leads(s, ls, t) && Fine(t, l)
    ensures Leads(s, ls + [l], Step(t, l))
  {
    assert ValidRun(t, [l]) && Run(t, [l]) == Step(t, l) by {
      hide Step, Fine;
      assert [l][1..] == [] && ValidRun(Step(t, l), []);
    }
    LeadsOn(s, ls, t, [l], Step(t, l));
  }

  lemma LeadsNowhere(s: Sys)
    ensures Leads(s, [], s)
  {
  }

  /** Steps of other threads. */
  predicate OnlyClients(ls: seq<Label>) {
    forall l | l in ls :: !l.IsServer()
  }

  lemma {:induction false} TimersAppend(a: seq<Label>, b: seq<Label>)
    ensures Timers(a + b) == Timers(a) + Timers(b)
  {
    if a == [] {
      assert a + b == b;
    } else {
      TimersAppend(a[1..], b);
      assert (a + b)[0] == a[0] && (a + b)[1..] == a[1..] + b;
    }
  }

  lemma NoReceipts(ls: seq<Label>)
    requires OnlyClients(ls)
    ensures NoReceipt(ls)
  {
  }

  lemma {:induction false} NoTimers(ls: seq<Label>)
    requires OnlyClients(ls)
    ensures Timers(ls) == 0
  {
    if ls != [] {
      assert ls[0] in ls;
      assert forall l | l in ls[1..] :: l in ls;
      NoTimers(ls[1..]);
    }
  }

  /** Other threads run, and then the server takes a step that is no timer and receives no request. */
  lemma OthersThen(s0: Sys, others: seq<Label>, s1: Sys, l: Label)
    requires OnlyClients(others) && Leads(s0, others, s1) && Fine(s1, l) && !l.Timer? && l != RecvRequest
    ensures Leads(s0, others + [l], Step(s1, l))
    ensures Timers(others + [l]) == 0 && NoReceipt(others + [l])
  {
    LeadsStep(s0, others, s1, l);
    NoTimers(others);
    TimersAppend(others, [l]);
    NoReceipts(others);
  }

  /** One more element at the front of the list that is answered. */
  lemma FillMore(net: Net, id: nat, done: seq<nat>, r: Response)
    ensures net.FillAll(done, r).SetShot(id, Filled(r)) == net.FillAll([id] + done, r)
  {
    var a, b := net.FillAll(done, r).SetShot(id, Filled(r)), net.FillAll([id] + done, r);
    assert a.tickets == b.tickets;
  }

  lemma FillNone(net: Net, r: Response)
    ensures net.FillAll([], r) == net
  {
    assert net.FillAll([], r).tickets == net.tickets;
  }

  class Task {
    const world: World
    var cwnd: nat
    var writeDgrams: seq<Bytes>
    var sentDgrams: seq<Bytes>
    var writeDgramWaiting: Option<Bytes>
    var flushNotifiers: seq<nat>
    var readyNotifiers: seq<nat>
    /** The other threads, which share `world`. */
    var clients: map<nat, Client>
    ghost var acked: seq<Bytes>
    ghost var lost: seq<Bytes>

    ghost function Vars(pc: Pc): Srv
      reads this
    {
      Srv(pc, cwnd, writeDgrams, sentDgrams, writeDgramWaiting, flushNotifiers, readyNotifiers, acked, lost)
    }

    ghost function View(pc: Pc): Sys
      reads this, world
    {
      Sys(Vars(pc), world.net, clients)
    }

    constructor (world: World, ghost cmdCap: nat, ghost wrCap: nat)
      requires world.net == Init(cmdCap, wrCap).net
      ensures this.world == world && View(AtSelect) == Init(cmdCap, wrCap) && Reachable(View(AtSelect))
      ensures cwnd == 10000
    {
      this.world, clients, acked, lost := world, map[], [], [];
      cwnd, writeDgrams, sentDgrams, writeDgramWaiting := INITIAL_CWND, [], [], None;
      flushNotifiers, readyNotifiers := [], [];
      new;
      assert ValidRun(View(AtSelect), []) && Run(View(AtSelect), []) == View(AtSelect);
    }

    /**
     Other threads run. What they do is any run of client steps; the body is the
     case in which they do nothing, and callers know no more than the contract.
     */
    method Interfere(ghost pc: Pc) returns (ghost ls: seq<Label>)
      modifies world, this`clients
      ensures OnlyClients(ls) && Leads(old(View(pc)), ls, View(pc))
    {
      ls := [];
    }

    /** Which branch of `select!` is taken: the wanted one, if its channel is ready for it. */
    method Await(wanted: Event) returns (event: Event)
      ensures Enabled(View(AtSelect), EventLabel(event))
      ensures event == wanted || event == TimerFired
      ensures Enabled(View(AtSelect), EventLabel(wanted)) ==> event == wanted
    {
      event := TimerFired;
      if wanted.RequestArrived? && world.net.cmd.queue != [] {
        event := wanted;
      }
      if wanted.ChannelClosed? && world.net.cmd.queue == [] && world.net.cmd.holders == {} {
        if forall c :: c in clients ==> !clients[c].cmd.open {
          event := wanted;
        }
      }
    }

    method TakeWaiting() returns (ghost pc: Pc)
      modifies this`writeDgrams, this`writeDgramWaiting
      ensures pc == if writeDgramWaiting.None? then AtDrain else AtStreamRefill
      ensures Vars(pc) == Server.TakeWaiting(old(Vars(AtSelect)))
    {
      if |writeDgrams| < MAX_SEND_DGRAMS {
        if writeDgramWaiting.Some? {
          writeDgrams := writeDgrams + [writeDgramWaiting.value];
          writeDgramWaiting := None;
        }
      }
      pc := if writeDgramWaiting.None? then AtDrain else AtStreamRefill;
    }

    /** The body of the timer branch. */
    method OnTimer() returns (ghost pc: Pc)
      modifies this`writeDgrams, this`writeDgramWaiting, this`sentDgrams, this`cwnd, this`acked
      ensures pc == if writeDgramWaiting.None? then AtDrain else AtStreamRefill
      ensures Vars(pc) == Server.OnTimer(old(Vars(AtSelect)))
    {
      if sentDgrams != [] {
        var buf := sentDgrams[0];
        sentDgrams, acked := sentDgrams[1..], acked + [buf];
        cwnd := cwnd + |buf|;
      }
      pc := TakeWaiting();
    }

    /** The body of the request branch. */
    method OnRequest() returns (ghost pc: Pc)
      requires world.net.cmd.queue != []
      modifies world, this`writeDgrams, this`writeDgramWaiting, this`flushNotifiers, this`readyNotifiers
      ensures pc == if writeDgramWaiting.None? then AtDrain else AtStreamRefill
      ensures Both(Vars(pc), world.net) == Server.OnRequest(old(Vars(AtSelect)), old(world.net))
    {
      var id := world.net.cmd.queue[0];
      world.net := world.net.(cmd := world.net.cmd.(queue := world.net.cmd.queue[1..]));
      if id < |world.net.tickets| {
        match world.net.tickets[id].req {
          case Write(buf) =>
            world.net := world.net.SetShot(id, Filled(Written(|buf|)));
          case Ready =>
            readyNotifiers := readyNotifiers + [id];
          case Flush =>
            flushNotifiers := flushNotifiers + [id];
        }
      }
      pc := TakeWaiting();
    }

    method AnswerReady()
      modifies world, this`readyNotifiers
      ensures readyNotifiers == []
      ensures world.net == old(world.net).FillAll(old(readyNotifiers), ReadyDone)
    {
      ghost var done := [];
      FillNone(world.net, ReadyDone);
      while readyNotifiers != []
        invariant readyNotifiers + done == old(readyNotifiers)
        invariant world.net == old(world.net).FillAll(done, ReadyDone)
        decreases |readyNotifiers|
      {
        var respondTo := readyNotifiers[|readyNotifiers| - 1];
        readyNotifiers := readyNotifiers[..|readyNotifiers| - 1];
        FillMore(old(world.net), respondTo, done, ReadyDone);
        world.net := world.net.SetShot(respondTo, Filled(ReadyDone));
        done := [respondTo] + done;
      }
    }

    method AnswerFlush()
      modifies world, this`flushNotifiers
      ensures flushNotifiers == []
      ensures world.net == old(world.net).FillAll(old(flushNotifiers), FlushDone)
    {
      ghost var done := [];
      FillNone(world.net, FlushDone);
      while flushNotifiers != []
        invariant flushNotifiers + done == old(flushNotifiers)
        invariant world.net == old(world.net).FillAll(done, FlushDone)
        decreases |flushNotifiers|
      {
        var respondTo := flushNotifiers[|flushNotifiers| - 1];
        flushNotifiers := flushNotifiers[..|flushNotifiers| - 1];
        FillMore(old(world.net), respondTo, done, FlushDone);
        world.net := world.net.SetShot(respondTo, Filled(FlushDone));
        done := [respondTo] + done;
      }
    }

    /** One round of the drain loop; `more` tells that the loop goes on. */
    method TryRecv() returns (more: bool)
      modifies world, this`readyNotifiers, this`flushNotifiers, this`writeDgrams, this`writeDgramWaiting
      ensures Both(Vars(if more then AtDrain else AtStreamRefill), world.net)
           == Server.TryRecv(old(Vars(AtDrain)), old(world.net))
      ensures more ==> old(|writeDgrams|) < MAX_SEND_DGRAMS && |writeDgrams| == old(|writeDgrams|) + 1
    {
      if world.net.wr.queue != [] {
        var buf := world.net.wr.queue[0];
        world.net := world.net.(wr := world.net.wr.(queue := world.net.wr.queue[1..]));
        AnswerReady();
        if |writeDgrams| < MAX_SEND_DGRAMS {
          writeDgrams := writeDgrams + [buf];
          more := true;
        } else {
          writeDgramWaiting := Some(buf);
          more := false;
        }
      } else {
        AnswerFlush();
        more := false;
      }
    }

    /**
     The drain loop. However fast the clients write meanwhile, it makes at most
     three receives.
     */
    method Drain() returns (ghost ls: seq<Label>, ghost tries: nat)
      modifies world, this`readyNotifiers, this`flushNotifiers, this`writeDgrams, this`writeDgramWaiting, this`clients
      ensures Leads(old(View(AtDrain)), ls, View(AtStreamRefill)) && Timers(ls) == 0 && NoReceipt(ls)
      ensures tries <= 3
    {
      ghost var s0 := View(AtDrain);
      ls, tries := [], 0;
      assert Leads(s0, [], s0);
      var more := true;
      while more
        invariant Leads(s0, ls, View(if more then AtDrain else AtStreamRefill)) && Timers(ls) == 0
        invariant NoReceipt(ls)
        invariant tries <= 3 && (more ==> tries <= MAX_SEND_DGRAMS)
        invariant more && tries > 0 ==> |writeDgrams| <= MAX_SEND_DGRAMS && tries <= |writeDgrams|
        decreases more, MAX_SEND_DGRAMS + 1 - tries
      {
        hide Leads;
        ghost var s1 := View(AtDrain);
        ghost var others := Interfere(AtDrain);
        ghost var s2 := View(AtDrain);
        OthersThen(s1, others, s2, TryWrite);
        more := TryRecv();
        ghost var s3 := View(if more then AtDrain else AtStreamRefill);
        assert s3 == Step(s2, TryWrite);
        LeadsOn(s0, ls, s1, others + [TryWrite], s3);
        TimersAppend(ls, others + [TryWrite]);
        ls, tries := ls + (others + [TryWrite]), tries + 1;
      }
    }

    /** The send loop at the end of an iteration. */
    method SendLoop()
      modifies this`writeDgrams, this`sentDgrams, this`cwnd
      ensures Vars(AtSelect) == SendPhase(old(Vars(AtDgramRefill)))
    {
      ghost var write0, sent0, cwnd0, i := writeDgrams, sentDgrams, cwnd, 0;
      while writeDgrams != [] && |writeDgrams[0]| <= cwnd
        invariant 0 <= i <= |write0| && writeDgrams == write0[i..] && sentDgrams == sent0 + write0[..i]
        invariant cwnd + |Flat(write0[..i])| == cwnd0
        invariant i + Fitting(writeDgrams, cwnd) == Fitting(write0, cwnd0)
        decreases |writeDgrams|
      {
        var buf := writeDgrams[0];
        assert write0[..i + 1] == write0[..i] + [buf];
        FlatAppend(write0[..i], [buf]);
        assert Flat([buf]) == buf + Flat<Byte>([]);
        writeDgrams := writeDgrams[1..];
        cwnd := cwnd - |buf|;
        sentDgrams := sentDgrams + [buf];
        i := i + 1;
      }
      assert Fitting(writeDgrams, cwnd) == 0;
    }

    /** The task ends and drops what it holds. */
    method Shutdown()
      modifies world, this`readyNotifiers, this`flushNotifiers, this`lost
      ensures forall pc :: Both(Vars(Stopped), world.net) == Stop(old(Vars(pc)), old(world.net))
    {
      lost := world.net.wr.queue;
      flushNotifiers, readyNotifiers := [], [];
      world.net := world.net.DropAll();
    }

    /** `select!` and what follows it, up to the drain. */
    method Select(wanted: Event) returns (event: Event, ghost pc: Pc)
      modifies world, this`writeDgrams, this`writeDgramWaiting, this`sentDgrams, this`cwnd, this`acked,
               this`flushNotifiers, this`readyNotifiers, this`lost
      ensures Enabled(old(View(AtSelect)), EventLabel(event))
      ensures View(pc) == Step(old(View(AtSelect)), EventLabel(event))
      ensures event == ChannelClosed <==> pc == Stopped
      ensures event != ChannelClosed ==> pc == if writeDgramWaiting.None? then AtDrain else AtStreamRefill
      ensures event == wanted || event == TimerFired
      ensures Enabled(old(View(AtSelect)), EventLabel(wanted)) ==> event == wanted
    {
      event := Await(wanted);
      match event {
        case RequestArrived =>
          pc := OnRequest();
        case ChannelClosed =>
          pc := Stopped;
          Shutdown();
        case TimerFired =>
          pc := OnTimer();
      }
    }

    /** The first refill, and the exit behind it. */
    method RefillStreamData(open: bool) returns (ended: bool, ghost ls: seq<Label>)
      modifies world, this`flushNotifiers, this`readyNotifiers, this`lost, this`clients
      ensures Leads(old(View(AtStreamRefill)), ls, View(if ended then Stopped else AtDgramRefill))
      ensures Timers(ls) == 0 && NoReceipt(ls)
      ensures ended <==> !open
    {
      ghost var s0 := View(AtStreamRefill);
      ghost var others := Interfere(AtStreamRefill);
      ghost var s1 := View(AtStreamRefill);
      OthersThen(s0, others, s1, RefillStream(open));
      hide Leads;
      ls := others + [RefillStream(open)];
      if !open {
        Shutdown();
      }
      ended := !open;
    }

    /** The second refill and its exit, and the send loop. */
    method RefillDgramsAndSend(open: bool) returns (ended: bool, ghost ls: seq<Label>)
      modifies world, this`writeDgrams, this`sentDgrams, this`cwnd, this`flushNotifiers, this`readyNotifiers,
               this`lost, this`clients
      ensures Leads(old(View(AtDgramRefill)), ls, View(if ended then Stopped else AtSelect))
      ensures Timers(ls) == 0 && NoReceipt(ls)
      ensures ended <==> !open
    {
      ghost var s0 := View(AtDgramRefill);
      ghost var others := Interfere(AtDgramRefill);
      ghost var s1 := View(AtDgramRefill);
      OthersThen(s0, others, s1, RefillDgram(open));
      hide Leads;
      ls := others + [RefillDgram(open)];
      if open {
        SendLoop();
      } else {
        Shutdown();
      }
      ended := !open;
    }

    /** The two refills, the exits behind them, and the send loop. */
    method RefillAndSend(streamOpen: bool, dgramOpen: bool) returns (ended: bool, ghost ls: seq<Label>)
      modifies world, this`writeDgrams, this`sentDgrams, this`cwnd, this`flushNotifiers, this`readyNotifiers,
               this`lost, this`clients
      ensures Leads(old(View(AtStreamRefill)), ls, View(if ended then Stopped else AtSelect)) && Timers(ls) == 0
      ensures NoReceipt(ls)
      ensures ended <==> !streamOpen || !dgramOpen
    {
      ghost var s0 := View(AtStreamRefill);
      hide Leads;
      ended, ls := RefillStreamData(streamOpen);
      if !ended {
        ghost var s1 := View(AtDgramRefill);
        ghost var more;
        ended, more := RefillDgramsAndSend(dgramOpen);
        LeadsOn(s0, ls, s1, more, View(if ended then Stopped else AtSelect));
        TimersAppend(ls, more);
        ls := ls + more;
      }
    }

    /**
     One iteration of the loop, with other threads running in between: a run of
     the step system, with one timer step if the timer branch was taken and none
     otherwise, and one receipt if the request branch was. `before` is what the
     other threads do up to `select!`; a branch that is wanted and can be taken
     there is taken. If the iteration takes a datagram off the channel, it answers
     every ready request received so far, and otherwise none; and the same with
     finding the channel empty and flush requests.
     */
    method Iteration(wanted: Event, streamOpen: bool, dgramOpen: bool)
      returns (ended: bool, event: Event, ghost before: seq<Label>, ghost ls: seq<Label>)
      modifies world, this
      ensures Leads(old(View(AtSelect)), ls, View(if ended then Stopped else AtSelect))
      ensures Timers(ls) == if event == TimerFired then 1 else 0
      ensures Receipts(ls) == if event == RequestArrived then 1 else 0
      ensures ended <==> event == ChannelClosed || !streamOpen || !dgramOpen
      ensures event == wanted || event == TimerFired
      ensures before + [EventLabel(event)] <= ls && OnlyClients(before) && ValidRun(old(View(AtSelect)), before)
      ensures Enabled(Run(old(View(AtSelect)), before), EventLabel(wanted)) ==> event == wanted
      ensures Reachable(old(View(AtSelect))) ==>
                && Handled(old(View(AtSelect)), ls, View(if ended then Stopped else AtSelect), Ready)
                && Handled(old(View(AtSelect)), ls, View(if ended then Stopped else AtSelect), Flush)
      ensures Reachable(old(View(AtSelect))) && wanted == RequestArrived && old(world.net.cmd.queue) != [] ==>
                && event == RequestArrived
                && (!ended ==> Attended(View(AtSelect), old(world.net.cmd.queue[0])))
      ensures Reachable(old(View(AtSelect))) && wanted == ChannelClosed && Enabled(old(View(AtSelect)), RecvClosed)
              && (forall l | l in before :: !l.Join?)
              ==> event == ChannelClosed && ended
    {
      ghost var s0 := View(AtSelect);
      before := Interfere(AtSelect);
      ghost var s1 := View(AtSelect);
      NoTimers(before);
      NoReceipts(before);
      NoneReceived(before);
      hide Leads, Step, Enabled;
      BeforeSelect(s0, before, s1);
      ghost var pc;
      event, pc := Select(wanted);
      ghost var s2 := View(pc);
      SelectFine(s1, EventLabel(event));
      LeadsStep(s0, before, s1, EventLabel(event));
      ghost var first := before + [EventLabel(event)];
      TimersAppend(before, [EventLabel(event)]);
      ReceiptsAppend(before, [EventLabel(event)]);
      ghost var rest: seq<Label> := [];
      LeadsNowhere(s2);
      if event == ChannelClosed {
        ended := true;
      } else {
        if writeDgramWaiting.None? {
          ghost var tries;
          rest, tries := Drain();
        }
        ghost var s3 := View(AtStreamRefill);
        ghost var more;
        ended, more := RefillAndSend(streamOpen, dgramOpen);
        LeadsOn(s2, rest, s3, more, View(if ended then Stopped else AtSelect));
        TimersAppend(rest, more);
        rest := rest + more;
      }
      ls := first + rest;
      ghost var t := View(if ended then Stopped else AtSelect);
      LeadsOn(s0, first, s2, rest, t);
      TimersAppend(first, rest);
      NoneReceived(rest);
      ReceiptsAppend(first, rest);
      hide Fine;
      IterationAnswers(s0, before, event, s2, rest, t);
      HeadAttended(s0, ls, t);
    }

    /**
     The whole loop, for any number of iterations: what was wanted, and whether
     the read channels were open, is arbitrary in each of them. If the loop has
     taken the timer branch once more often than datagrams were owing, and took in
     no new one, then all that can be acknowledged is: every datagram before the
     first that is too long. At no time is an accepted one lost, doubled or overtaken.
     The requests queued at the start are received in order, one in each iteration
     that wants one, until none of them is left.
     */
    method Serve(schedule: seq<(Event, bool, bool)>)
      returns (ended: bool, events: seq<Event>, ghost ls: seq<Label>)
      requires Reachable(View(AtSelect))
      modifies world, this
      ensures Leads(old(View(AtSelect)), ls, View(if ended then Stopped else AtSelect))
      ensures Timers(ls) == Taken(events, TimerFired) && Receipts(ls) == Taken(events, RequestArrived)
      ensures |events| <= |schedule| && (!ended ==> |events| == |schedule|)
      ensures forall i | 0 <= i < |events| :: events[i] == schedule[i].0 || events[i] == TimerFired
      ensures Reachable(View(if ended then Stopped else AtSelect))
      ensures !ended ==>
                world.net.accepted == acked + sentDgrams + writeDgrams + Opt(writeDgramWaiting) + world.net.wr.queue
      ensures !ended ==> cwnd + |Flat(sentDgrams)| == 10000
      ensures !ended && world.net.accepted == old(world.net.accepted)
              && Taken(events, TimerFired) >= Owing(old(View(AtSelect))) + 1
              ==> acked == world.net.accepted[..Deliverable(world.net.accepted)]
      ensures Taken(events, RequestArrived) >= Wanted(schedule[..|events|], RequestArrived)
              || Taken(events, RequestArrived) >= |old(world.net.cmd.queue)|
      ensures !ended ==> InOrder(old(View(AtSelect)), View(AtSelect), Taken(events, RequestArrived))
    {
      hide Leads, Handled, Attended, Queued, Step, Enabled, Fine, InOrder, Run, ValidRun, Deliverable, Owing, Reachable;
      ended, events, ls := false, [], [];
      ghost var s0 := View(AtSelect);
      LeadsNowhere(s0);
      while |events| < |schedule| && !ended
        invariant |events| <= |schedule|
        invariant Leads(s0, ls, View(if ended then Stopped else AtSelect))
        invariant Timers(ls) == Taken(events, TimerFired) && Receipts(ls) == Taken(events, RequestArrived)
        invariant forall i | 0 <= i < |events| :: events[i] == schedule[i].0 || events[i] == TimerFired
        invariant Taken(events, RequestArrived) >= Wanted(schedule[..|events|], RequestArrived)
                  || Taken(events, RequestArrived) >= |s0.net.cmd.queue|
        decreases |schedule| - |events|
      {
        var (wanted, streamOpen, dgramOpen) := schedule[|events|];
        ghost var s1 := View(AtSelect);
        Served(s0, ls, s1);
        ghost var before, more;
        var event;
        ended, event, before, more := Iteration(wanted, streamOpen, dgramOpen);
        LeadsOn(s0, ls, s1, more, View(if ended then Stopped else AtSelect));
        TimersAppend(ls, more);
        ReceiptsAppend(ls, more);
        assert (events + [event])[..|events|] == events;
        assert schedule[..|events| + 1][..|events|] == schedule[..|events|];
        ls, events := ls + more, events + [event];
      }
      Served(s0, ls, View(if ended then Stopped else AtSelect));
    }
  }

  /** After `r` receipts: the first `r` requests of the command channel are attended to, the others moved up. */
  ghost predicate InOrder(s: Sys, t: Sys, r: nat) {
    forall n | 0 <= n < |s.net.cmd.queue| ::
      if n < r then Attended(t, s.net.cmd.queue[n]) else Queued(t, s.net.cmd.queue[n], n - r)
  }

  /** The state at `select!`, after client steps only. */
  lemma BeforeSelect(s: Sys, before: seq<Label>, t: Sys)
    requires OnlyClients(before) && Leads(s, before, t) && s.srv.pc == t.srv.pc == AtSelect
    ensures ValidRun(s, before) && Run(s, before) == t
    ensures Reachable(s) && s.net.cmd.queue != [] ==> Enabled(t, RecvRequest)
    ensures Reachable(s) && Enabled(s, RecvClosed) && (forall l | l in before :: !l.Join?) ==> Enabled(t, RecvClosed)
  {
    NoReceipts(before);
    NoneReceived(before);
    if Reachable(s) {
      ReachableInv(s);
      ReachableSealed(s);
      hide Step, Inv, AllSealed, Reachable;
      if s.net.cmd.queue != [] {
        QueuedRun(s, before, s.net.cmd.queue[0], 0);
      }
      if Enabled(s, RecvClosed) && (forall l | l in before :: !l.Join?) {
        DesertedRun(s, before);
      }
    }
  }

  lemma HeadAttended(s: Sys, ls: seq<Label>, t: Sys)
    requires Leads(s, ls, t)
    ensures Reachable(s) && s.net.cmd.queue != [] && Receipts(ls) > 0 && t.srv.pc != Stopped ==>
              Attended(t, s.net.cmd.queue[0])
  {
    hide Step, Fine, Attended;
    if Reachable(s) && s.net.cmd.queue != [] && Receipts(ls) > 0 && t.srv.pc != Stopped {
      ReachableInv(s);
      hide Inv;
      ReceivedInOrder(s, ls, 0);
    }
  }

  /** What an iteration does for the requests in the notifier lists. */
  lemma IterationAnswers(s: Sys, others: seq<Label>, event: Event, mid: Sys, rest: seq<Label>, t: Sys)
    requires OnlyClients(others) && Leads(s, others + [EventLabel(event)], mid)
    requires Leads(mid, rest, t) && NoReceipt(rest)
    ensures Reachable(s) ==>
              var ls := others + [EventLabel(event)] + rest;
              ValidRun(s, ls) && Handled(s, ls, t, Ready) && Handled(s, ls, t, Flush)
  {
    hide Step, Enabled, Fine, Inv, Handled;
    if Reachable(s) {
      ReachableInv(s);
      var first := others + [EventLabel(event)];
      hide Run, ValidRun, Reachable;
      assert forall l | l in first :: l != TryWrite;
      RunAppend(s, first, rest);
      IterationHandles(s, first, mid, rest, Ready);
      IterationHandles(s, first, mid, rest, Flush);
    }
  }

  /** What a run from a reachable state has achieved. */
  lemma Served(s: Sys, ls: seq<Label>, t: Sys)
    requires Reachable(s) && Leads(s, ls, t)
    ensures t.srv.pc != Stopped ==> InOrder(s, t, Receipts(ls))
    ensures t.srv.pc != Stopped && Receipts(ls) < |s.net.cmd.queue| ==> t.net.cmd.queue != []
    ensures Reachable(t)
    ensures t.srv.pc != Stopped ==>
              t.net.accepted == t.srv.acked + t.srv.sent + t.srv.write + Opt(t.srv.waiting) + t.net.wr.queue
    ensures t.srv.cwnd + |Flat(t.srv.sent)| == 10000
    ensures t.srv.pc != Stopped && t.net.accepted == s.net.accepted && Timers(ls) >= Owing(s) + 1
            ==> t.srv.acked == t.net.accepted[..Deliverable(t.net.accepted)]
  {
    hide Step, Fine, Deliverable;
    ReachableRun(s, ls);
    ReachableInv(s);
    if t.srv.pc != Stopped {
      hide Attended, Inv;
      forall n | 0 <= n < |s.net.cmd.queue|
        ensures if n < Receipts(ls) then Attended(t, s.net.cmd.queue[n])
                else Queued(t, s.net.cmd.queue[n], n - Receipts(ls))
      {
        ReceivedInOrder(s, ls, n);
      }
      assert Receipts(ls) < |s.net.cmd.queue| ==> Queued(t, s.net.cmd.queue[Receipts(ls)], 0);
    }
    hide Reachable;
    FifoQueue(t);
    CreditConserved(t);
    if t.srv.pc != Stopped && t.net.accepted == s.net.accepted && Timers(ls) >= Owing(s) + 1 {
      PrefixAcknowledged(s, ls);
    }
  }

  /** How many iterations took the branch of `e`. */
  function Taken(events: seq<Event>, e: Event): nat {
    if events == [] then 0 else
      Taken(events[..|events| - 1], e) + if events[|events| - 1] == e then 1 else 0
  }

  /** How many wanted it. */
  function Wanted(schedule: seq<(Event, bool, bool)>, e: Event): nat {
    if schedule == [] then 0 else
      Wanted(schedule[..|schedule| - 1], e) + if schedule[|schedule| - 1].0 == e then 1 else 0
  }

  lemma SelectFine(s: Sys, l: Label)
    requires Enabled(s, l) && l.IsServer()
    ensures Fine(s, l)
  {
  }
}
