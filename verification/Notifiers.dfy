/** Which steps of a run answer the requests in the notifier lists. */
module Notifiers {
  import opened Channels
  import opened Server
  import opened Actor
  import opened CallEffects
  import opened Invariant
  import opened Progress
  import opened Handshake

  /** A receive that took a datagram answers ready requests, one that found none answers flushes. */
  predicate Answering(s: Sys, l: Label, q: Request) {
    l.TryWrite? && (q.Flush? <==> s.net.wr.queue == [])
  }

  /** How often a run does so: for ready requests, the number of datagrams it takes off the channel. */
  ghost function Answerings(s: Sys, ls: seq<Label>, q: Request): nat
    requires ValidRun(s, ls)
    decreases |ls|
  {
    if ls == [] then 0 else
      (if Answering(s, ls[0], q) then 1 else 0) + Answerings(Step(s, ls[0]), ls[1..], q)
  }

  lemma {:induction false} AnsweringsAppend(s: Sys, a: seq<Label>, b: seq<Label>, q: Request)
    requires ValidRun(s, a) && ValidRun(Run(s, a), b)
    ensures ValidRun(s, a + b)
    ensures Answerings(s, a + b, q) == Answerings(s, a, q) + Answerings(Run(s, a), b, q)
    decreases |a|
  {
    hide Step, Enabled, Result;
    if a == [] {
      assert a + b == b;
    } else {
      AnsweringsAppend(Step(s, a[0]), a[1..], b, q);
      assert (a + b)[0] == a[0] && (a + b)[1..] == a[1..] + b;
    }
  }

  lemma {:induction false} NoReceives(s: Sys, ls: seq<Label>, q: Request)
    requires ValidRun(s, ls) && (s.srv.pc == Stopped || forall l | l in ls :: l != TryWrite)
    ensures Answerings(s, ls, q) == 0
    decreases |ls|
  {
    if ls != [] {
      assert ls[0] in ls && forall l | l in ls[1..] :: l in ls;
      if s.srv.pc == Stopped {
        assert Step(s, ls[0]).srv == s.srv by {
          hide CallStep;
        }
      }
      hide Step, Result;
      NoReceives(Step(s, ls[0]), ls[1..], q);
    }
  }

  /** The answers to requests `q` are the ones given before. */
  ghost predicate NoNewAnswers(net: Net, net': Net, q: Request) {
    && |net.tickets| <= |net'.tickets|
    && (forall i | 0 <= i < |net'.tickets| :: SameAnswer(net, net'.tickets[i], i, q))
  }

  predicate SameAnswer(net: Net, t': Ticket, i: nat, q: Request) {
    t'.req == q && t'.shot.Answer().Some? ==>
      i < |net.tickets| && net.tickets[i].req == q && net.tickets[i].shot.Answer() == t'.shot.Answer()
  }

  lemma NoNewTrans(a: Net, b: Net, c: Net, q: Request)
    requires NoNewAnswers(a, b, q) && NoNewAnswers(b, c, q)
    ensures NoNewAnswers(a, c, q)
  {
    forall i | 0 <= i < |c.tickets|
      ensures SameAnswer(a, c.tickets[i], i, q)
    {
      assert SameAnswer(b, c.tickets[i], i, q);
      assert i < |b.tickets| ==> SameAnswer(a, b.tickets[i], i, q);
    }
  }

  lemma CallNoNew(net: Net, net': Net, me: nat, key: nat, q: Request)
    requires TicketsMove(net, net', me, key)
    ensures NoNewAnswers(net, net', q)
  {
    forall i | 0 <= i < |net'.tickets|
      ensures SameAnswer(net, net'.tickets[i], i, q)
    {
      assert i < |net.tickets| ==> TicketMove(net.tickets[i], net'.tickets[i], me, key);
    }
  }

  lemma RequestNoNew(s: Sys, q: Request)
    requires Inv(s) && Enabled(s, RecvRequest) && Notifies(q)
    ensures NoNewAnswers(s.net, Step(s, RecvRequest).net, q)
    ensures Notified(s.srv, q) <= Notified(Step(s, RecvRequest).srv, q)
  {
    HeadKnown(s);
    hide Inv;
    RequestParts(s.srv, s.net, s.net.cmd.queue[0]);
    hide OnRequest;
  }

  lemma TryRecvNoNew(s: Sys, q: Request)
    requires Inv(s) && Enabled(s, TryWrite) && Notifies(q) && !Answering(s, TryWrite, q)
    ensures NoNewAnswers(s.net, Step(s, TryWrite).net, q)
    ensures Notified(s.srv, q) == Notified(Step(s, TryWrite).srv, q)
  {
    hide Pipeline, Balanced, AllHonest, AllKept;
  }

  /** Any other step answers none of them, and the list stays but for what is received. */
  lemma NoneStep(s: Sys, l: Label, q: Request)
    requires Inv(s) && Enabled(s, l) && Notifies(q) && !Answering(s, l, q)
    ensures var s' := Step(s, l);
            && NoNewAnswers(s.net, s'.net, q)
            && (s'.srv.pc != Stopped ==> Notified(s.srv, q) <= Notified(s'.srv, q))
            && (s'.srv.pc != Stopped && l != RecvRequest ==> Notified(s'.srv, q) == Notified(s.srv, q))
  {
    if l.IsCall() {
      CallStepMoves(s.clients[l.c], s.net, l);
      CallNoNew(s.net, Step(s, l).net, l.c, KeyOf(l), q);
      hide CallStep, NoNewAnswers, Inv;
    } else if l.RecvRequest? {
      RequestNoNew(s, q);
      hide Step, NoNewAnswers, Inv;
    } else if l.TryWrite? {
      TryRecvNoNew(s, q);
      hide Step, NoNewAnswers, Inv;
    } else {
      hide Inv;
    }
  }

  lemma {:induction false} AnswersNone(s: Sys, ls: seq<Label>, q: Request)
    requires Inv(s) && ValidRun(s, ls) && Notifies(q) && Answerings(s, ls, q) == 0
    ensures NoNewAnswers(s.net, Run(s, ls).net, q)
    ensures Run(s, ls).srv.pc != Stopped ==> Notified(s.srv, q) <= Notified(Run(s, ls).srv, q)
    decreases |ls|
  {
    if ls != [] {
      var s1 := Step(s, ls[0]);
      NoneStep(s, ls[0], q);
      StepInv(s, ls[0]);
      AnswersNone(s1, ls[1..], q);
      NoNewTrans(s.net, s1.net, Run(s1, ls[1..]).net, q);
      StaysStopped(s1, ls[1..]);
      hide Step, Enabled, Inv, NoNewAnswers, Notified;
    }
  }

  lemma AnsweringStep(s: Sys, l: Label, q: Request)
    requires Inv(s) && Enabled(s, l) && Notifies(q) && Answering(s, l, q)
    ensures Notified(Step(s, l).srv, q) == []
    ensures forall id | id in Notified(s.srv, q) :: Gives(Step(s, l), id, q)
  {
    forall id | id in Notified(s.srv, q)
      ensures Unanswered(s.net, id)
    {
      KnownTicket(s, q, id);
    }
    hide Inv;
  }

  predicate NoReceipt(ls: seq<Label>) {
    forall l | l in ls :: l != RecvRequest
  }

  /** After an answering step, in a run that receives no request, the list is empty. */
  lemma {:induction false} AnswersAll(s: Sys, ls: seq<Label>, q: Request)
    requires Inv(s) && ValidRun(s, ls) && Notifies(q) && NoReceipt(ls)
    ensures Answerings(s, ls, q) > 0 ==>
              Notified(Run(s, ls).srv, q) == [] && forall id | id in Notified(s.srv, q) :: Gives(Run(s, ls), id, q)
    ensures Notified(s.srv, q) == [] ==> Notified(Run(s, ls).srv, q) == []
    decreases |ls|
  {
    if ls != [] {
      assert ls[0] in ls && forall l | l in ls[1..] :: l in ls;
      var s1 := Step(s, ls[0]);
      StepInv(s, ls[0]);
      AnswersAll(s1, ls[1..], q);
      if Answering(s, ls[0], q) {
        AnsweringStep(s, ls[0], q);
        hide Step, Enabled, Inv, Gives, Notified, Answering;
        AllStayGiven(s1, ls[1..], Notified(s.srv, q), q);
      } else {
        NoneStep(s, ls[0], q);
        if s1.srv.pc == Stopped {
          NoReceives(s1, ls[1..], q);
          EmptyWhenStopped(s, ls[0], q);
        }
        hide Step, Enabled, Inv, Gives, Notified, NoNewAnswers;
      }
    }
  }

  lemma AllStayGiven(s: Sys, ls: seq<Label>, ids: seq<nat>, q: Request)
    requires Inv(s) && ValidRun(s, ls) && forall id | id in ids :: Gives(s, id, q)
    ensures forall id | id in ids :: Gives(Run(s, ls), id, q)
  {
    hide Gives, Inv, Run, ValidRun;
    forall id | id in ids
      ensures Gives(Run(s, ls), id, q)
    {
      StaysGiven(s, ls, id, q);
    }
  }

  lemma EmptyWhenStopped(s: Sys, l: Label, q: Request)
    requires Enabled(s, l) && Step(s, l).srv.pc == Stopped
    ensures Notified(s.srv, q) == [] ==> Notified(Step(s, l).srv, q) == []
  {
    hide CallStep;
  }

  /**
   What a stretch of a run does for requests of a kind. If it has an answering
   step, then the list is empty at the end, all that were in it got their answer,
   and so did every other request of the kind that the server has received. If it
   has none, then nobody is answered, and nobody leaves the list while the server runs.
   */
  ghost predicate Handled(s: Sys, ls: seq<Label>, t: Sys, q: Request)
    requires ValidRun(s, ls)
  {
    if Answerings(s, ls, q) > 0 then
      && Notified(t.srv, q) == []
      && (forall id | id in Notified(s.srv, q) :: Gives(t, id, q))
      && (t.srv.pc != Stopped ==> forall id | 0 <= id < |t.net.tickets| :: ReceivedOne(t, id, q) ==> Gives(t, id, q))
    else
      && NoNewAnswers(s.net, t.net, q)
      && (t.srv.pc != Stopped ==> Notified(s.srv, q) <= Notified(t.srv, q))
  }

  predicate ReceivedOne(s: Sys, id: nat, q: Request) {
    id < |s.net.tickets| && s.net.tickets[id].req == q && id !in s.net.cmd.queue
  }

  lemma ReceivedGiven(t: Sys, id: nat, q: Request)
    requires Inv(t) && t.srv.pc != Stopped && Notifies(q) && Notified(t.srv, q) == [] && ReceivedOne(t, id, q)
    ensures Gives(t, id, q)
  {
    var ticket := t.net.tickets[id];
    assert Kept(ticket);
    assert Honest(ticket, Left(t.srv));
    NotHeld(t, id);
  }

  lemma NotHeld(t: Sys, id: nat)
    requires Conserved(t.srv, t.net)
    ensures id !in t.net.cmd.queue && id !in t.srv.flush && id !in t.srv.ready ==> !Unanswered(t.net, id)
  {
    assert Held(t.srv, t.net)[id]
        == multiset(t.net.cmd.queue)[id] + multiset(t.srv.flush)[id] + multiset(t.srv.ready)[id];
  }

  /**
   An iteration of the server's loop is such a stretch: it receives at most one
   request, and that before it drains.
   */
  lemma IterationHandles(s: Sys, a: seq<Label>, mid: Sys, b: seq<Label>, q: Request)
    requires Inv(s) && ValidRun(s, a) && Run(s, a) == mid && ValidRun(mid, b) && Notifies(q)
    requires (forall l | l in a :: l != TryWrite) && NoReceipt(b)
    ensures ValidRun(s, a + b) && Handled(s, a + b, Run(mid, b), q)
  {
    var t := Run(mid, b);
    AnsweringsAppend(s, a, b, q);
    RunAppend(s, a, b);
    NoReceives(s, a, q);
    RunInv(s, a);
    RunInv(mid, b);
    AnswersNone(s, a, q);
    if Answerings(mid, b, q) > 0 {
      AnswersAll(mid, b, q);
      if mid.srv.pc == Stopped {
        NoReceives(mid, b, q);
      }
      forall id | 0 <= id < |t.net.tickets| && ReceivedOne(t, id, q) && t.srv.pc != Stopped
        ensures Gives(t, id, q)
      {
        ReceivedGiven(t, id, q);
      }
    } else {
      AnswersNone(s, a + b, q);
    }
    hide Run, ValidRun, Inv, Gives, NoNewAnswers, ReceivedOne;
  }
}
