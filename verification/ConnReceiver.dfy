/**
 The TCP receiver as it is written: its table, its counter and its nested loops.
 The kernel and the peers act between its system calls, and every loop is shown
 to be a run of the step system.
 */
module ConnReceiver {
  import opened Basics
  import opened ConnTable

  /** `ls` leads from `s` to `t`. */
  ghost predicate Leads(s: State, ls: seq<Label>, t: State) {
    ValidRun(s, ls) && Run(s, ls) == t
  }

  lemma LeadsOn(s: State, ls: seq<Label>, t: State, more: seq<Label>, u: State)
    requires Inv(t) && Leads(s, ls, t) && Leads(t, more, u)
    ensures Leads(s, ls + more, u) && Inv(u)
  {
    RunAppend(s, ls, more);
    RunInv(t, more);
  }

  predicate OnlyPeers(ls: seq<Label>) {
    forall l | l in ls :: l.IsEnv()
  }

  /** What the peers bring in: connections and bytes. */
  function Arrivals(ls: seq<Label>): nat {
    if ls == [] then 0 else
      Arrivals(ls[1..]) + match ls[0] case Connect(_) => 1 case Data(_, n, _) => n case _ => 0
  }

  /** The peers add to what there is, and no more than they bring. */
  ghost predicate Added(s: State, s': State, n: nat) {
    && s'.p == s.p && s'.k.regs == s.k.regs
    && |s'.k.backlog| <= |s.k.backlog| + n
    && forall c | c in s.k.socks ::
         && c in s'.k.socks
         && s'.k.socks[c].unread <= s.k.socks[c].unread + n
         && (s.k.socks[c].eof ==> s'.k.socks[c].eof)
  }

  lemma PeerAdds(s: State, l: Label)
    requires Inv(s) && Enabled(s, l) && l.IsEnv()
    ensures Added(s, Step(s, l), Arrivals([l]))
  {
    hide NothingLost, BatchRight, Agree, Arrival, Sane;
    assert [l][1..] == [] && Arrivals([]) == 0;
    ServerFresh(s.k);
    if l.Data? {
      var sock := s.k.socks[l.conn];
      ArrivalKeeps(s.k, l.conn, sock.(unread := sock.unread + l.n), l.again);
    } else if l.PeerClose? {
      ArrivalKeeps(s.k, l.conn, s.k.socks[l.conn].(eof := true), l.again);
    }
  }

  lemma ServerFresh(k: Kernel)
    requires Sane(k)
    ensures k.born !in k.socks
  {
  }

  lemma ArrivalKeeps(k: Kernel, conn: nat, sock: Sock, again: bool)
    requires conn in k.socks
    ensures var k' := Arrival(k, conn, sock, again);
            k'.socks == k.socks[conn := sock] && k'.regs == k.regs && k'.backlog == k.backlog
  {
  }

  lemma {:induction false} PeersAdd(s: State, ls: seq<Label>)
    requires Inv(s) && ValidRun(s, ls) && OnlyPeers(ls)
    ensures Added(s, Run(s, ls), Arrivals(ls))
    decreases |ls|
  {
    hide Inv, Step, Enabled;
    if ls != [] {
      assert ls[0] in ls;
      assert forall l | l in ls[1..] :: l in ls;
      PeerAdds(s, ls[0]);
      assert Arrivals([ls[0]]) + Arrivals(ls[1..]) == Arrivals(ls) by {
        assert [ls[0]][1..] == [] && Arrivals([]) == 0;
      }
      StepInv(s, ls[0]);
      PeersAdd(Step(s, ls[0]), ls[1..]);
    }
  }

  /** The batches of a run, poll by poll. */
  function Polls(ls: seq<Label>): seq<seq<Event>> {
    if ls == [] then [] else (if ls[0].Poll? then [ls[0].events] else []) + Polls(ls[1..])
  }

  lemma {:induction false} PollsAppend(a: seq<Label>, b: seq<Label>)
    ensures Polls(a + b) == Polls(a) + Polls(b)
  {
    if a == [] {
      assert a + b == b;
    } else {
      PollsAppend(a[1..], b);
      assert (a + b)[0] == a[0] && (a + b)[1..] == a[1..] + b;
    }
  }

  lemma {:induction false} NoPoll(a: seq<Label>, b: seq<Label>)
    requires forall l | l in b :: !l.Poll?
    ensures Polls(a + b) == Polls(a)
    decreases |b|
  {
    if b == [] {
      assert a + b == a;
    } else {
      assert b[0] in b && forall l | l in b[1..] :: l in b;
      NoPoll([], b[1..]);
      assert [] + b[1..] == b[1..];
      PollsAppend(a, b);
    }
  }

  /** The loop lets the peers act. */
  lemma AfterPeers(s0: State, ls: seq<Label>, s1: State, others: seq<Label>, s2: State)
    requires Inv(s1) && Leads(s0, ls, s1) && Leads(s1, others, s2) && OnlyPeers(others)
    ensures Leads(s0, ls + others, s2) && Inv(s2) && Added(s1, s2, Arrivals(others))
    ensures Polls(ls + others) == Polls(ls)
  {
    NoPoll(ls, others);
    LeadsOn(s0, ls, s1, others, s2);
    PeersAdd(s1, others);
  }

  /** The loop takes a step of its own. */
  lemma AfterStep(s0: State, ls: seq<Label>, s1: State, l: Label, s2: State)
    requires Inv(s1) && Leads(s0, ls, s1) && Enabled(s1, l) && Step(s1, l) == s2
    ensures Leads(s0, ls + [l], s2) && Inv(s2)
    ensures Polls(ls + [l]) == Polls(ls) + if l.Poll? then [l.events] else []
  {
    PollsAppend(ls, [l]);
    assert [l][1..] == [] && Polls([]) == [];
    assert ValidRun(s1, [l]) && Run(s1, [l]) == s2 by {
      hide Step, Enabled;
      assert [l][1..] == [] && ValidRun(s2, []);
    }
    LeadsOn(s0, ls, s1, [l], s2);
  }

  /** A system call fails and the thread ends. */
  lemma AfterFailure(s0: State, ls: seq<Label>, s1: State)
    requires Inv(s1) && Leads(s0, ls, s1)
    requires s1.p.pc.Accepting? || s1.p.pc.Reading? || s1.p.pc.AtPoll?
    ensures var s2 := s1.(p := s1.p.(pc := Ended)); Leads(s0, ls + [Fails], s2) && Inv(s2)
    ensures Polls(ls + [Fails]) == Polls(ls)
  {
    AfterStep(s0, ls, s1, Fails, s1.(p := s1.p.(pc := Ended)));
  }

  lemma AfterAcceptBlocks(s0: State, ls: seq<Label>, s1: State)
    requires Inv(s1) && Leads(s0, ls, s1) && s1.p.pc.Accepting? && s1.k.backlog == []
    ensures var s2 := s1.(p := s1.p.(pc := InBatch)); Leads(s0, ls + [AcceptBlocks], s2) && Inv(s2)
    ensures Polls(ls + [AcceptBlocks]) == Polls(ls)
  {
    AfterStep(s0, ls, s1, AcceptBlocks, s1.(p := s1.p.(pc := InBatch)));
  }

  lemma AfterReadBlocks(s0: State, ls: seq<Label>, s1: State)
    requires Inv(s1) && Leads(s0, ls, s1) && Enabled(s1, ReadBlocks)
    ensures var s2 := s1.(p := s1.p.(pc := InBatch)); Leads(s0, ls + [ReadBlocks], s2) && Inv(s2)
    ensures Polls(ls + [ReadBlocks]) == Polls(ls)
    ensures CurrentSock(s1) == Sock(0, false)
  {
    AfterStep(s0, ls, s1, ReadBlocks, s1.(p := s1.p.(pc := InBatch)));
  }

  lemma ReadShrinks(s: State, n: nat)
    requires Enabled(s, Read(n))
    ensures var s' := Step(s, Read(n));
            Current(s') && s'.p == s.p && n > 0 && CurrentSock(s').unread == CurrentSock(s).unread - n
  {
  }

  lemma EndRemoves(s: State)
    requires Enabled(s, ReadEnd)
    ensures s.p.pc.token !in Step(s, ReadEnd).p.table
  {
  }

  lemma ReadingFacts(s: State)
    requires Inv(s) && s.p.pc.Reading?
    ensures Current(s)
  {
  }

  lemma AcceptingFacts(s: State)
    requires Inv(s) && s.p.pc.Accepting? && s.k.backlog != []
    ensures Enabled(s, Accept) && s.p.next !in s.p.table
  {
    assert s.k.backlog[0] in s.k.socks;
  }

  lemma AtPollFacts(s: State)
    requires Inv(s) && s.p.pc == AtPoll
    ensures s.p.batch == []
    ensures forall c :: c in s.k.regs && c in s.k.socks && s.k.socks[c].Readable() ==> c in s.k.edges
    ensures s.k.backlog != [] ==> s.k.serverEdge
  {
    forall c | c in s.k.regs && c in s.k.socks && s.k.socks[c].Readable()
      ensures c in s.k.edges
    {
      assert Remembered(s, c);
    }
  }

  lemma LeadsNowhere(s: State)
    ensures Leads(s, [], s) && Polls([]) == []
  {
  }

  lemma LeadsIs(s: State, ls: seq<Label>, t: State)
    requires Leads(s, ls, t)
    ensures ValidRun(s, ls) && Run(s, ls) == t
  {
  }

  class Receiver {
    var connections: map<nat, nat>
    var uniqueToken: nat
    /** The kernel, which the peers share. */
    var k: Kernel
    /** How many connections and bytes the peers are still going to bring. */
    ghost var coming: nat

    ghost function View(pc: Pc, batch: seq<Event>): State
      reads this
    {
      State(k, Loop(pc, connections, uniqueToken, batch))
    }

    constructor (ghost coming: nat)
      ensures View(AtPoll, []) == INIT && this.coming == coming
    {
      connections, uniqueToken, k := map[], SERVER + 1, INIT.k;
      this.coming := coming;
    }

    /**
     The kernel and the peers act. What they do is any run of their steps that is
     paid for out of `coming`; the body is the case in which they do nothing, and
     callers know no more than the contract.
     */
    method Interfere(ghost pc: Pc, ghost batch: seq<Event>) returns (ghost ls: seq<Label>)
      modifies this`k, this`coming
      ensures OnlyPeers(ls) && Leads(old(View(pc, batch)), ls, View(pc, batch))
      ensures coming + Arrivals(ls) == old(coming)
    {
      ls := [];
    }

    /** The function `next`. */
    method Next() returns (token: nat)
      modifies this`uniqueToken
      ensures token == old(uniqueToken) && uniqueToken == old(uniqueToken) + 1
    {
      token := uniqueToken;
      uniqueToken := uniqueToken + 1;
    }

    /** The events of a poll: those offered, if they are possible, and otherwise none. */
    method Poll(offered: seq<Event>) returns (events: seq<Event>)
      modifies this`k
      ensures Enabled(old(View(AtPoll, [])), Label.Poll(events))
      ensures View(InBatch, events) == Step(old(View(AtPoll, [])), Label.Poll(events))
      ensures events == offered || events == []
      ensures Enabled(old(View(AtPoll, [])), Label.Poll(offered)) ==> events == offered
    {
      events := [];
      if |offered| <= BATCH_CAPACITY && forall e | e in offered :: Possible(k, e) {
        events := offered;
      }
      k := Deliver(k, events);
    }

    /** One `accept` that succeeds, and what is done with the connection. */
    method AcceptOne(ghost batch: seq<Event>)
      requires Enabled(View(Accepting, batch), Accept)
      modifies this`connections, this`uniqueToken, this`k
      ensures View(Accepting, batch) == Step(old(View(Accepting, batch)), Accept)
      ensures |k.backlog| < old(|k.backlog|)
    {
      var conn := k.backlog[0];
      k := k.(backlog := k.backlog[1..]);
      var token := Next();
      k := k.(regs := k.regs[conn := token]);
      if k.socks[conn].Readable() {
        k := Edge(k, conn);
      }
      connections := connections[token := conn];
    }

    /**
     The accept loop. It ends because the peers bring finitely many connections,
     and if it ends without an error then no connection waits. In `healthy` runs no
     system call fails.
     */
    method AcceptLoop(healthy: bool, ghost batch: seq<Event>) returns (failed: bool, ghost ls: seq<Label>)
      requires Inv(View(Accepting, batch))
      modifies this
      ensures Leads(old(View(Accepting, batch)), ls, View(if failed then Ended else InBatch, batch))
      ensures !failed ==> k.backlog == []
      ensures (healthy ==> !failed) && Polls(ls) == []
    {
      hide Leads, Inv, Step, Enabled, Polls, Arrivals, OnlyPeers;
      ghost var s0 := View(Accepting, batch);
      ls := [];
      LeadsNowhere(s0);
      while true
        invariant Leads(s0, ls, View(Accepting, batch)) && Inv(View(Accepting, batch)) && Polls(ls) == []
        decreases |k.backlog| + coming
      {
        ghost var s1 := View(Accepting, batch);
        ghost var others := Interfere(Accepting, batch);
        ghost var s2 := View(Accepting, batch);
        AfterPeers(s0, ls, s1, others, s2);
        ls := ls + others;
        var bad: bool := *;
        if bad && !healthy {
          AfterFailure(s0, ls, s2);
          return true, ls + [Fails];
        }
        if k.backlog == [] {
          AfterAcceptBlocks(s0, ls, s2);
          return false, ls + [AcceptBlocks];
        }
        AcceptingFacts(s2);
        AcceptOne(batch);
        AfterStep(s0, ls, s2, Accept, View(Accepting, batch));
        ls := ls + [Accept];
      }
    }

    /**
     One `recv`: `None` is WouldBlock, zero is the end of the stream. How many
     bytes come is up to the kernel.
     */
    method Recv(token: nat, ghost batch: seq<Event>) returns (res: Option<nat>)
      requires Current(View(Reading(token), batch))
      modifies this`k
      ensures var s := old(View(Reading(token), batch));
              match res
              case None => Enabled(s, ReadBlocks) && k == old(k)
              case Some(n) =>
                if n == 0 then Enabled(s, ReadEnd) && k == old(k)
                else Enabled(s, Read(n)) && View(Reading(token), batch) == Step(s, Read(n))
    {
      var conn := connections[token];
      var sock := k.socks[conn];
      if sock.unread == 0 {
        return if sock.eof then Some(0) else None;
      }
      var n: nat :| 0 < n <= BUFFER_SIZE && n <= sock.unread;
      k := k.(socks := k.socks[conn := sock.(unread := sock.unread - n)]);
      return Some(n);
    }

    /** A connection that is done leaves the table and the registry, and is closed. */
    method Remove(token: nat, ghost batch: seq<Event>)
      requires Enabled(View(Reading(token), batch), ReadEnd)
      modifies this`connections, this`k
      ensures View(InBatch, batch) == Step(old(View(Reading(token), batch)), ReadEnd)
    {
      var conn := connections[token];
      connections := connections - {token};
      k := k.(socks := k.socks - {conn}, regs := k.regs - {conn}, edges := k.edges - {conn});
    }

    /**
     The read loop. It ends because the peers bring finitely many bytes, and if it
     ends without an error then the connection is gone or has nothing to read.
     */
    method ReadLoop(token: nat, healthy: bool, ghost batch: seq<Event>) returns (failed: bool, ghost ls: seq<Label>)
      requires Inv(View(Reading(token), batch))
      modifies this
      ensures Leads(old(View(Reading(token), batch)), ls, View(if failed then Ended else InBatch, batch))
      ensures !failed && token in connections ==>
                connections[token] in k.socks && k.socks[connections[token]] == Sock(0, false)
      ensures (healthy ==> !failed) && Polls(ls) == []
    {
      hide Leads, Inv, Step, Enabled, Polls, Arrivals, OnlyPeers;
      ghost var s0 := View(Reading(token), batch);
      ls := [];
      LeadsNowhere(s0);
      var done := false;
      ReadingFacts(s0);
      while !done
        invariant Leads(s0, ls, View(Reading(token), batch)) && Inv(View(Reading(token), batch)) && Polls(ls) == []
        invariant Current(View(Reading(token), batch))
        invariant done ==> Enabled(View(Reading(token), batch), ReadEnd)
        decreases !done, k.socks[connections[token]].unread + coming
      {
        ghost var s1 := View(Reading(token), batch);
        ghost var others := Interfere(Reading(token), batch);
        ghost var s2 := View(Reading(token), batch);
        AfterPeers(s0, ls, s1, others, s2);
        ls := ls + others;
        var bad: bool := *;
        if bad && !healthy {
          AfterFailure(s0, ls, s2);
          return true, ls + [Fails];
        }
        ReadingFacts(s2);
        var res := Recv(token, batch);
        if res == None {
          AfterReadBlocks(s0, ls, s2);
          return false, ls + [ReadBlocks];
        }
        if res.value == 0 {
          done := true;
        } else {
          ReadShrinks(s2, res.value);
          AfterStep(s0, ls, s2, Read(res.value), View(Reading(token), batch));
          ReadingFacts(View(Reading(token), batch));
          ls := ls + [Read(res.value)];
        }
      }
      hide Leads, Inv, Step, Enabled;
      ghost var s3 := View(Reading(token), batch);
      Remove(token, batch);
      AfterStep(s0, ls, s3, ReadEnd, View(InBatch, batch));
      EndRemoves(s3);
      return false, ls + [ReadEnd];
    }

    /** The loop over a batch; `left` are the events not taken out when it failed. */
    method HandleBatch(events: seq<Event>, healthy: bool)
      returns (failed: bool, ghost left: seq<Event>, ghost ls: seq<Label>)
      requires Inv(View(InBatch, events))
      modifies this
      ensures Leads(old(View(InBatch, events)), ls, View(if failed then Ended else AtPoll, left))
      ensures Inv(View(if failed then Ended else AtPoll, left))
      ensures !failed ==> left == []
      ensures (healthy ==> !failed) && Polls(ls) == []
    {
      ghost var s0 := View(InBatch, events);
      ls := [];
      var rest := events;
      assert Leads(s0, [], s0);
      while rest != []
        invariant Leads(s0, ls, View(InBatch, rest)) && Inv(View(InBatch, rest)) && Polls(ls) == []
        decreases |rest|
      {
        hide Leads, Inv, Step, Enabled;
        ghost var s1 := View(InBatch, rest);
        ghost var others := Interfere(InBatch, rest);
        ghost var s2 := View(InBatch, rest);
        AfterPeers(s0, ls, s1, others, s2);
        ls := ls + others;
        ghost var more;
        failed, more := HandleEvent(rest, healthy);
        rest := rest[1..];
        LeadsOn(s0, ls, s2, more, View(if failed then Ended else InBatch, rest));
        PollsAppend(ls, more);
        ls := ls + more;
        if failed {
          return true, rest, ls;
        }
      }
      ghost var s3 := View(InBatch, []);
      AfterStep(s0, ls, s3, BatchDone, View(AtPoll, []));
      return false, [], ls + [BatchDone];
    }

    /** One event: the accept loop, the read loop, or nothing for a token that is gone. */
    method HandleEvent(batch: seq<Event>, healthy: bool) returns (failed: bool, ghost ls: seq<Label>)
      requires Inv(View(InBatch, batch)) && batch != []
      modifies this
      ensures Leads(old(View(InBatch, batch)), ls, View(if failed then Ended else InBatch, batch[1..]))
      ensures !failed && batch[0].ServerEvent? ==> k.backlog == []
      ensures !failed && batch[0].ConnEvent? && batch[0].token in connections ==>
                connections[batch[0].token] in k.socks && k.socks[connections[batch[0].token]] == Sock(0, false)
      ensures (healthy ==> !failed) && Polls(ls) == []
    {
      ghost var s0 := View(InBatch, batch);
      ghost var s1 := Step(s0, NextEvent);
      assert Leads(s0, [], s0);
      AfterStep(s0, [], s0, NextEvent, s1);
      hide Leads, Inv, Enabled;
      ls := [NextEvent];
      failed := false;
      ghost var more: seq<Label> := [];
      match batch[0] {
        case ServerEvent =>
          failed, more := AcceptLoop(healthy, batch[1..]);
          LeadsOn(s0, ls, s1, more, View(if failed then Ended else InBatch, batch[1..]));
        case ConnEvent(token, _) =>
          if token in connections {
            failed, more := ReadLoop(token, healthy, batch[1..]);
            LeadsOn(s0, ls, s1, more, View(if failed then Ended else InBatch, batch[1..]));
          }
      }
      PollsAppend(ls, more);
      ls := ls + more;
    }

    /**
     One round of the thread: a poll and the loop over its events. `before` is what
     the peers do up to the poll; the events offered are the batch, if they are
     possible there.
     */
    method Round(offered: seq<Event>, healthy: bool)
      returns (failed: bool, events: seq<Event>, ghost left: seq<Event>, ghost before: seq<Label>, ghost ls: seq<Label>)
      requires Inv(View(AtPoll, []))
      modifies this
      ensures Leads(old(View(AtPoll, [])), ls, View(if failed then Ended else AtPoll, left))
      ensures Inv(View(if failed then Ended else AtPoll, left))
      ensures (!failed ==> left == []) && (healthy ==> !failed)
      ensures !failed ==>
                && before + [Label.Poll(events)] <= ls && OnlyPeers(before)
                && ValidRun(old(View(AtPoll, [])), before)
                && (Enabled(Run(old(View(AtPoll, [])), before), Label.Poll(offered)) ==> events == offered)
                && (events == offered || events == [])
                && Polls(ls) == [events]
    {
      ghost var s0 := View(AtPoll, []);
      LeadsNowhere(s0);
      before := Interfere(AtPoll, []);
      ghost var s1 := View(AtPoll, []);
      AfterPeers(s0, [], s0, before, s1);
      assert [] + before == before;
      LeadsIs(s0, before, s1);
      hide Leads, Inv, Step, Enabled;
      var bad: bool := *;
      if bad && !healthy {
        AfterFailure(s0, before, s1);
        return true, [], [], before, before + [Fails];
      }
      events := Poll(offered);
      ghost var s2 := View(InBatch, events);
      AfterStep(s0, before, s1, Label.Poll(events), s2);
      ghost var more;
      failed, left, more := HandleBatch(events, healthy);
      ghost var s3 := View(if failed then Ended else AtPoll, left);
      LeadsOn(s0, before + [Label.Poll(events)], s2, more, s3);
      PollsAppend(before + [Label.Poll(events)], more);
      ls := before + [Label.Poll(events)] + more;
    }

    /**
     The whole thread, one poll for each offer. Where it has not ended, it is about
     to poll, and everything registered that can be read has an event pending.
     */
    method Serve(offers: seq<seq<Event>>, healthy: bool)
      returns (failed: bool, polls: seq<seq<Event>>, ghost ls: seq<Label>)
      requires Inv(View(AtPoll, []))
      modifies this
      ensures !failed ==> Leads(old(View(AtPoll, [])), ls, View(AtPoll, []))
      ensures failed ==> exists left :: Leads(old(View(AtPoll, [])), ls, View(Ended, left))
      ensures healthy ==> !failed
      ensures !failed ==> Polls(ls) == polls && |polls| == |offers|
      ensures forall i | 0 <= i < |polls| && i < |offers| :: polls[i] == offers[i] || polls[i] == []
      ensures !failed ==> forall c :: c in k.regs && c in k.socks && k.socks[c].Readable() ==> c in k.edges
      ensures !failed ==> (k.backlog != [] ==> k.serverEdge)
    {
      ghost var s0 := View(AtPoll, []);
      ls, polls, failed := [], [], false;
      assert Leads(s0, [], s0);
      while |polls| < |offers|
        invariant Leads(s0, ls, View(AtPoll, [])) && Inv(View(AtPoll, [])) && !failed
        invariant Polls(ls) == polls && |polls| <= |offers|
        invariant forall i | 0 <= i < |polls| :: polls[i] == offers[i] || polls[i] == []
        decreases |offers| - |polls|
      {
        hide Leads, Inv, Step, Enabled;
        ghost var s1 := View(AtPoll, []);
        ghost var left, before, more;
        var events;
        failed, events, left, before, more := Round(offers[|polls|], healthy);
        LeadsOn(s0, ls, s1, more, View(if failed then Ended else AtPoll, left));
        PollsAppend(ls, more);
        ls := ls + more;
        if failed {
          return;
        }
        polls := polls + [events];
      }
      AtPollFacts(View(AtPoll, []));
    }
  }
}
