/** The order in which the server receives requests, and what becomes of each. */
module Reception {
  import opened Basics
  import opened Channels
  import opened Server
  import opened Actor
  import opened CallEffects
  import opened Invariant
  import opened Progress
  import opened Notifiers
  import opened Completion

  /** The server has received request `id`: it has answered it, or keeps it in the list of its kind. */
  predicate Attended(s: Sys, id: nat) {
    && id < |s.net.tickets| && id !in s.net.cmd.queue
    && var t := s.net.tickets[id];
       || (t.shot.Answer().Some? && Answers(t.shot.Answer().value, t.req))
       || (t.req == Flush && id in s.srv.flush)
       || (t.req == Ready && id in s.srv.ready)
  }

  lemma OutOfQueueAttended(s: Sys, id: nat)
    requires Inv(s) && s.srv.pc != Stopped && id < |s.net.tickets| && id !in s.net.cmd.queue
    ensures Attended(s, id)
  {
    var t := s.net.tickets[id];
    assert Kept(t) && Honest(t, Left(s.srv));
    NotHeld(s, id);
    assert id in s.srv.flush ==> t.req == Flush;
    assert id in s.srv.ready ==> t.req == Ready;
  }

  /** No request comes back into the command channel. */
  lemma OutStaysStep(s: Sys, l: Label, id: nat)
    requires Inv(s) && Enabled(s, l) && id < |s.net.tickets| && id !in s.net.cmd.queue
    ensures id < |Step(s, l).net.tickets| && id !in Step(s, l).net.cmd.queue
  {
    if l.IsCall() {
      CallStepMoves(s.clients[l.c], s.net, l);
      hide CallStep, Inv;
    } else if l.RecvRequest? {
      ReceivesHead(s);
      hide Step, Inv;
    } else {
      hide Inv;
    }
  }

  /** Receiving takes the head off the command channel, which is in it no second time. */
  lemma ReceivesHead(s: Sys)
    requires Inv(s) && Enabled(s, RecvRequest)
    ensures var s' := Step(s, RecvRequest);
            && s'.net.cmd.queue == s.net.cmd.queue[1..] && |s'.net.tickets| == |s.net.tickets|
            && s.net.cmd.queue[0] < |s.net.tickets| && s.net.cmd.queue[0] !in s'.net.cmd.queue
  {
    var id := s.net.cmd.queue[0];
    var others := multiset(s.net.cmd.queue[1..]) + multiset(s.srv.flush) + multiset(s.srv.ready);
    HeadIsHeld(s.srv, s.net, id, others);
    assert Held(s.srv, s.net)[id] == 1 && others[id] == 0;
    RequestParts(s.srv, s.net, id);
    hide OnRequest, Inv;
    assert multiset(s.net.cmd.queue[1..])[id] == 0;
  }

  lemma {:induction false} OutStays(s: Sys, ls: seq<Label>, id: nat)
    requires Inv(s) && ValidRun(s, ls) && id < |s.net.tickets| && id !in s.net.cmd.queue
    ensures id < |Run(s, ls).net.tickets| && id !in Run(s, ls).net.cmd.queue
    decreases |ls|
  {
    hide Inv, Step, Enabled, Result;
    if ls != [] {
      OutStaysStep(s, ls[0], id);
      StepInv(s, ls[0]);
      OutStays(Step(s, ls[0]), ls[1..], id);
    }
  }

  /** After more receipts than there were requests before it, a request has left the channel. */
  lemma {:induction false} ReceivedRun(s: Sys, ls: seq<Label>, id: nat, n: nat)
    requires Inv(s) && ValidRun(s, ls) && Queued(s, id, n) && n < Receipts(ls)
    requires Run(s, ls).srv.pc != Stopped
    ensures id < |Run(s, ls).net.tickets| && id !in Run(s, ls).net.cmd.queue
    decreases |ls|
  {
    hide Inv, Step, Enabled, Result;
    StaysStopped(Step(s, ls[0]), ls[1..]);
    StepInv(s, ls[0]);
    if ls[0].RecvRequest? && n == 0 {
      RequestEnabled(s, ls);
      ReceivesHead(s);
      OutStays(Step(s, ls[0]), ls[1..], id);
    } else {
      QueuedStep(s, ls[0], id, n);
      ReceivedRun(Step(s, ls[0]), ls[1..], id, if ls[0].RecvRequest? then n - 1 else n);
    }
  }

  lemma RequestEnabled(s: Sys, ls: seq<Label>)
    requires ValidRun(s, ls) && ls != [] && ls[0].RecvRequest?
    ensures Enabled(s, RecvRequest) && ls[0] == RecvRequest
  {
  }

  /**
   In order: after `r` receipts the first `r` of the requests queued at the start
   have been received, and are answered or in their list; the others have moved up.
   */
  lemma ReceivedInOrder(s: Sys, ls: seq<Label>, n: nat)
    requires Inv(s) && ValidRun(s, ls) && Run(s, ls).srv.pc != Stopped && n < |s.net.cmd.queue|
    ensures if n < Receipts(ls) then Attended(Run(s, ls), s.net.cmd.queue[n])
            else Queued(Run(s, ls), s.net.cmd.queue[n], n - Receipts(ls))
  {
    RunInv(s, ls);
    hide Inv, Run, ValidRun, Attended;
    if n < Receipts(ls) {
      ReceivedRun(s, ls, s.net.cmd.queue[n], n);
      OutOfQueueAttended(Run(s, ls), s.net.cmd.queue[n]);
    } else {
      QueuedRun(s, ls, s.net.cmd.queue[n], n);
    }
  }

  lemma {:induction false} ReceiptsAppend(a: seq<Label>, b: seq<Label>)
    ensures Receipts(a + b) == Receipts(a) + Receipts(b)
  {
    if a == [] {
      assert a + b == b;
    } else {
      ReceiptsAppend(a[1..], b);
      assert (a + b)[0] == a[0] && (a + b)[1..] == a[1..] + b;
    }
  }

  lemma {:induction false} NoneReceived(ls: seq<Label>)
    requires NoReceipt(ls)
    ensures Receipts(ls) == 0
  {
    if ls != [] {
      assert ls[0] in ls && forall l | l in ls[1..] :: l in ls;
      NoneReceived(ls[1..]);
    }
  }
}
