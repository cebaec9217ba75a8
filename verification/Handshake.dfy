/** Which flush and ready requests the server answers, and how soon. */
module Handshake {
  import opened Basics
  import opened Channels
  import opened Commands
  import opened Clients
  import opened Server
  import opened Actor
  import opened Invariant
  import opened Evolution
  import opened Progress

  /** The two kinds of request that wait in a list. */
  predicate Notifies(q: Request) {
    q.Flush? || q.Ready?
  }

  function Notified(s: Srv, q: Request): seq<nat> {
    if q.Flush? then s.flush else s.ready
  }

  function Reply(q: Request): Response {
    if q.Flush? then FlushDone else ReadyDone
  }

  /**
   The way is clear. For a flush: at most two datagrams are stuck, which the write
   queue holds. For a ready request: the channel has a datagram, and at most two
   stuck ones are ahead of the channel's first.
   */
  predicate Clear(s: Sys, q: Request) {
    && (q.Ready? ==> s.net.wr.queue != [])
    && |s.net.accepted| <= Deliverable(s.net.accepted) + 2 + if q.Ready? then |s.net.wr.queue| else 0
  }

  lemma KnownTicket(s: Sys, q: Request, id: nat)
    requires Inv(s) && Notifies(q) && id in Notified(s.srv, q)
    ensures Unanswered(s.net, id) && s.net.tickets[id].req == q
  {
    HeldUnanswered(Held(s.srv, s.net), s.srv.flush, s.net);
    HeldUnanswered(Held(s.srv, s.net), s.srv.ready, s.net);
  }

  /** When the server drains, all but two of the datagrams out of the channel are deliverable. */
  lemma DrainRoom(s: Sys)
    requires Inv(s) && AckedFits(s.srv) && s.srv.pc == AtDrain
    ensures |s.net.accepted| <= Deliverable(s.net.accepted) + 2 + |s.net.wr.queue|
    ensures Owing(s) == 0 ==>
              |s.net.accepted| >= Deliverable(s.net.accepted) + |s.srv.write| + |s.net.wr.queue|
  {
    SentWithin(s);
    hide Deliverable;
  }

  /** One step leaves the request in its list, or it answers it, and then the way was clear. */
  lemma WaitStep(s: Sys, l: Label, q: Request, id: nat)
    requires Inv(s) && AckedFits(s.srv) && Enabled(s, l) && Quiet(s, l)
    requires Notifies(q) && id in Notified(s.srv, q)
    ensures var s' := Step(s, l);
            || (id in Notified(s'.srv, q) && (q.Ready? ==> s'.net.wr.queue == s.net.wr.queue))
            || (l.TryWrite? && Clear(s, q) && s'.net.ShotOf(id) == Filled(Reply(q)))
  {
    hide Clear;
    KnownTicket(s, q, id);
    if !l.IsServer() {
      QuietCall(s, l);
      hide Step, Inv;
    } else {
      match l
      case RecvRequest => HeadKnown(s); RequestParts(s.srv, s.net, s.net.cmd.queue[0]); hide OnRequest, Inv;
      case TryWrite => DrainStep(s, q, id); hide Step, Inv;
      case _ => hide Inv;
    }
  }

  lemma HeadKnown(s: Sys)
    requires Inv(s) && s.net.cmd.queue != []
    ensures s.net.cmd.queue[0] < |s.net.tickets|
  {
    HeadIsHeld(s.srv, s.net, s.net.cmd.queue[0],
               multiset(s.net.cmd.queue[1..]) + multiset(s.srv.flush) + multiset(s.srv.ready));
  }

  lemma DrainStep(s: Sys, q: Request, id: nat)
    requires Inv(s) && AckedFits(s.srv) && s.srv.pc == AtDrain
    requires Notifies(q) && id in Notified(s.srv, q) && Unanswered(s.net, id)
    ensures var s' := Step(s, TryWrite);
            || (id in Notified(s'.srv, q) && (q.Ready? ==> s'.net.wr.queue == s.net.wr.queue))
            || (Clear(s, q) && s'.net.ShotOf(id) == Filled(Reply(q)))
  {
    DrainRoom(s);
    hide Deliverable, Inv, AckedFits;
  }

  /** While the request waits, the way stays as clear as it was. */
  lemma WaitKeeps(s: Sys, l: Label, q: Request, id: nat)
    requires Inv(s) && AckedFits(s.srv) && Enabled(s, l) && Quiet(s, l)
    requires Notifies(q) && id in Notified(s.srv, q)
    ensures var s' := Step(s, l);
            if id in Notified(s'.srv, q) then Clear(s', q) == Clear(s, q)
            else Clear(s, q) && Gives(s', id, q)
  {
    WaitStep(s, l, q, id);
    KnownTicket(s, q, id);
    if l.TryWrite? && id in Notified(Step(s, l).srv, q) {
      NotTwice(s, q, id);
    }
    hide Step, Inv, Deliverable, AckedFits, Enabled;
  }

  /** The answer takes the request out of its list. */
  lemma NotTwice(s: Sys, q: Request, id: nat)
    requires Inv(s) && Enabled(s, TryWrite) && Notifies(q) && id in Notified(Step(s, TryWrite).srv, q)
    ensures Unanswered(Step(s, TryWrite).net, id)
  {
    StepInv(s, TryWrite);
    hide Step;
    KnownTicket(Step(s, TryWrite), q, id);
  }

  /** All that is owing is acknowledged, and a drain is under way. */
  predicate Poised(s: Sys) {
    Owing(s) == 0 && s.srv.pc == AtDrain
  }

  /** The rounds it takes until a waiting request is answered. */
  function Budget(s: Sys): nat {
    if Poised(s) then 1 else Measure(s) + 2
  }

  /** A timer that finds nothing owing starts a drain that will go through. */
  lemma TimerPoises(s: Sys, q: Request)
    requires Inv(s) && AckedFits(s.srv) && Notifies(q) && Clear(s, q) && s.srv.pc == AtSelect && Owing(s) == 0
    ensures Step(s, Timer).srv.pc == AtDrain
  {
    SentWithin(s);
    hide Deliverable;
    assert s.srv.sent == [];
  }

  lemma PoisedStep(s: Sys, l: Label, q: Request, id: nat)
    requires Inv(s) && AckedFits(s.srv) && Enabled(s, l) && Quiet(s, l) && Notifies(q) && Clear(s, q)
    requires Poised(s) && id in Notified(Step(s, l).srv, q)
    ensures Poised(Step(s, l)) && !l.Timer?
  {
    hide Deliverable;
    if !l.IsServer() {
      QuietCall(s, l);
      hide Step, Clear, Inv;
    } else {
      DrainRoom(s);
      hide Inv;
    }
  }

  lemma BudgetStep(s: Sys, l: Label, q: Request, id: nat)
    requires Inv(s) && AckedFits(s.srv) && Enabled(s, l) && Quiet(s, l) && Notifies(q) && Clear(s, q)
    requires id in Notified(Step(s, l).srv, q)
    ensures Budget(Step(s, l)) <= Budget(s) - if l.Timer? then 1 else 0
  {
    if Poised(s) {
      PoisedStep(s, l, q, id);
      hide *;
    } else {
      MeasureStep(s, l);
      if l.Timer? && Measure(s) == 0 {
        TimerPoises(s, q);
        TimerMeasure(s);
      }
      hide Step, Inv, Deliverable, Settled, Clear, Quiet, Enabled;
    }
  }

  /** The iteration under way counts as one more if it is complete. */
  function Rounds(ls: seq<Label>, t: Sys): nat {
    Timers(ls) + if t.srv.pc == AtSelect then 1 else 0
  }

  ghost predicate Gives(s: Sys, id: nat, q: Request) {
    s.net.ShotOf(id).Answer() == Some(Reply(q))
  }

  lemma StaysGiven(s: Sys, ls: seq<Label>, id: nat, q: Request)
    requires Inv(s) && ValidRun(s, ls) && Gives(s, id, q)
    ensures Gives(Run(s, ls), id, q)
  {
    RunLater(s, ls);
    hide Run, ValidRun, Inv;
    assert id < |s.net.tickets|;
  }

  lemma NotInTime(s: Sys)
    ensures Budget(s) > if s.srv.pc == AtSelect then 1 else 0
  {
  }

  lemma {:induction false} AnsweredInTime(s: Sys, ls: seq<Label>, q: Request, id: nat)
    requires Inv(s) && AckedFits(s.srv) && ValidRun(s, ls) && Notifies(q) && Clear(s, q)
    requires Run(s, ls).net.accepted == s.net.accepted && Run(s, ls).srv.pc != Stopped
    requires id in Notified(s.srv, q)
    requires Rounds(ls, Run(s, ls)) >= Budget(s)
    ensures Gives(Run(s, ls), id, q)
    decreases |ls|
  {
    hide Step, Enabled, Result, Inv, Budget, Gives, Clear, AckedFits, Notified;
    if ls == [] {
      NotInTime(s);
    } else {
      var s1 := Step(s, ls[0]);
      QuietRun(s, ls);
      WaitKeeps(s, ls[0], q, id);
      AckedFitStep(s, ls[0]);
      if id in Notified(s1.srv, q) {
        BudgetStep(s, ls[0], q, id);
        AnsweredInTime(s1, ls[1..], q, id);
      } else {
        StaysGiven(s1, ls[1..], id, q);
      }
    }
  }

  lemma {:induction false} NeverAnswered(s: Sys, ls: seq<Label>, q: Request, id: nat)
    requires Inv(s) && AckedFits(s.srv) && ValidRun(s, ls) && Notifies(q) && !Clear(s, q)
    requires Run(s, ls).net.accepted == s.net.accepted && Run(s, ls).srv.pc != Stopped
    requires id in Notified(s.srv, q)
    ensures Unanswered(Run(s, ls).net, id) && id in Notified(Run(s, ls).srv, q)
    decreases |ls|
  {
    hide Step, Enabled, Result, Inv, Gives, Clear, AckedFits, Notified;
    if ls == [] {
      KnownTicket(s, q, id);
    } else {
      QuietRun(s, ls);
      WaitKeeps(s, ls[0], q, id);
      AckedFitStep(s, ls[0]);
      NeverAnswered(Step(s, ls[0]), ls[1..], q, id);
    }
  }

  /** The server receives the request `id`, which is a flush or a ready request. */
  predicate Receives(s: Sys, id: nat, q: Request) {
    && s.net.cmd.queue != [] && s.net.cmd.queue[0] == id
    && id < |s.net.tickets| && s.net.tickets[id].req == q && Notifies(q)
  }

  lemma Received(s: Sys, id: nat, q: Request)
    requires Inv(s) && AckedFits(s.srv) && Enabled(s, RecvRequest) && Receives(s, id, q)
    ensures var s1 := Step(s, RecvRequest);
            && Inv(s1) && AckedFits(s1.srv) && id in Notified(s1.srv, q)
            && s1.net.accepted == s.net.accepted && s1.net.wr.queue == s.net.wr.queue
            && Budget(s1) <= Owing(s) + 2
  {
    StepInv(s, RecvRequest);
    AckedFitStep(s, RecvRequest);
    RequestMeasure(s);
    RequestParts(s.srv, s.net, id);
    hide OnRequest, Inv, Deliverable, Settled, Owing;
  }

  lemma ReachableFits(s: Sys)
    requires Reachable(s)
    ensures Inv(s) && AckedFits(s.srv)
  {
    ReachableInv(s);
    SentFits(s);
    DeliverableIs(s.net.accepted);
    hide Reachable, Deliverable;
    AckedFirst(s);
  }

  /** What holds for both kinds of request. */
  lemma AnsweredExactly(s: Sys, ls: seq<Label>, id: nat, q: Request)
    requires Reachable(s) && ValidRun(s, ls) && ls != [] && ls[0] == RecvRequest && Receives(s, id, q)
    requires Run(s, ls).net.accepted == s.net.accepted && Run(s, ls).srv.pc != Stopped
    requires Rounds(ls, Run(s, ls)) >= Owing(s) + 2
    ensures Gives(Run(s, ls), id, q) <==> Clear(s, q)
    ensures !Clear(s, q) ==> Unanswered(Run(s, ls).net, id)
  {
    ReachableFits(s);
    Received(s, id, q);
    var s1 := Step(s, RecvRequest);
    assert Clear(s1, q) == Clear(s, q) && Timers(ls) == Timers(ls[1..]);
    hide Step, Enabled, Inv, Clear, Budget, Owing, AckedFits, Reachable;
    if Clear(s, q) {
      AnsweredInTime(s1, ls[1..], q, id);
    } else {
      NeverAnswered(s1, ls[1..], q, id);
    }
  }

  /**
   A flush request that the server receives is answered, within two rounds more
   than there are datagrams owing, exactly if no oversized datagram has two others
   behind it: the write queue must hold all that is stuck. If not, it is never
   answered while nothing more is accepted.
   */
  lemma FlushAnsweredIff(s: Sys, ls: seq<Label>, id: nat)
    requires Reachable(s) && ValidRun(s, ls) && ls != [] && ls[0] == RecvRequest && Receives(s, id, Flush)
    requires Run(s, ls).net.accepted == s.net.accepted && Run(s, ls).srv.pc != Stopped
    requires Rounds(ls, Run(s, ls)) >= Owing(s) + 2
    ensures Run(s, ls).net.ShotOf(id).Answer() == Some(FlushDone) <==>
              forall i | 0 <= i < |s.net.accepted| :: |s.net.accepted[i]| > 10000 ==> i + 2 >= |s.net.accepted|
    ensures Run(s, ls).net.ShotOf(id).Answer() == Some(FlushDone) || Unanswered(Run(s, ls).net, id)
  {
    AnsweredExactly(s, ls, id, Flush);
    DeliverableIs(s.net.accepted);
    hide Run, ValidRun, Reachable, Deliverable;
  }

  /**
   The same for a ready request: the write channel must still hold a datagram, and
   the write queue and the waiting slot must hold all that is stuck ahead of it.
   */
  lemma ReadyAnsweredExactly(s: Sys, ls: seq<Label>, id: nat)
    requires Reachable(s) && ValidRun(s, ls) && ls != [] && ls[0] == RecvRequest && Receives(s, id, Ready)
    requires Run(s, ls).net.accepted == s.net.accepted && Run(s, ls).srv.pc != Stopped
    requires Rounds(ls, Run(s, ls)) >= Owing(s) + 2
    ensures Run(s, ls).net.ShotOf(id).Answer() == Some(ReadyDone) <==>
              && s.net.wr.queue != []
              && forall i | 0 <= i < |s.net.accepted| ::
                   |s.net.accepted[i]| > 10000 ==> i + 2 + |s.net.wr.queue| >= |s.net.accepted|
    ensures Run(s, ls).net.ShotOf(id).Answer() == Some(ReadyDone) || Unanswered(Run(s, ls).net, id)
  {
    AnsweredExactly(s, ls, id, Ready);
    DeliverableIs(s.net.accepted);
    hide Run, ValidRun, Reachable, Deliverable;
  }

  /**
   The ready handshake when every datagram fits, within the bound of
   `BoundedProgress`: a ready request that the server receives is answered if and
   only if the write channel still holds a datagram.
   */
  lemma ReadyAnsweredIff(s: Sys, ls: seq<Label>, id: nat)
    requires Reachable(s) && AllFit(s)
    requires ValidRun(s, ls) && ls != [] && ls[0] == RecvRequest && Receives(s, id, Ready)
    requires Run(s, ls).net.accepted == s.net.accepted && Run(s, ls).srv.pc != Stopped
    requires Timers(ls) >= Outstanding(s) + 1
    ensures Run(s, ls).net.ShotOf(id).Answer() == Some(ReadyDone) <==> s.net.wr.queue != []
    ensures Run(s, ls).net.ShotOf(id).Answer() == Some(ReadyDone) || Unanswered(Run(s, ls).net, id)
  {
    ReachableFits(s);
    Received(s, id, Ready);
    BoundedProgress(s, ls);
    var s1 := Step(s, RecvRequest);
    hide Step, Enabled, Inv, Budget, Owing, AckedFits, Reachable, AllFit, Clear;
    ReadyRun(s1, ls[1..], id);
  }

  /** A received ready request stays in its list with the channel as it is, or it has been answered. */
  lemma {:induction false} ReadyRun(s: Sys, ls: seq<Label>, id: nat)
    requires Inv(s) && AckedFits(s.srv) && ValidRun(s, ls) && id in s.srv.ready
    requires Run(s, ls).net.accepted == s.net.accepted && Run(s, ls).srv.pc != Stopped
    ensures var s' := Run(s, ls);
            || (id in s'.srv.ready && s'.net.wr.queue == s.net.wr.queue && Unanswered(s'.net, id))
            || (s.net.wr.queue != [] && Gives(s', id, Ready))
    decreases |ls|
  {
    if ls == [] {
      KnownTicket(s, Ready, id);
    } else {
      var s1 := Step(s, ls[0]);
      QuietRun(s, ls);
      WaitStep(s, ls[0], Ready, id);
      AckedFitStep(s, ls[0]);
      hide Step, Enabled, Inv, Deliverable;
      if id in s1.srv.ready {
        ReadyRun(s1, ls[1..], id);
      } else {
        StaysGiven(s1, ls[1..], id, Ready);
      }
    }
  }

  /** The silent half needs no bound: an empty channel leaves the request waiting for ever. */
  lemma ReadyStarves(s: Sys, ls: seq<Label>, id: nat)
    requires Reachable(s) && ValidRun(s, ls) && id in s.srv.ready && s.net.wr.queue == []
    requires Run(s, ls).net.accepted == s.net.accepted && Run(s, ls).srv.pc != Stopped
    ensures Unanswered(Run(s, ls).net, id) && id in Run(s, ls).srv.ready
  {
    ReachableFits(s);
    ReadyRun(s, ls, id);
  }

  /* The writer that waits for ever. */

  /**
   Client `c` waits, under key `k`, for the answer of a ready request that the
   server has received after the write channel had become empty.
   */
  predicate Starved(s: Sys, c: nat, k: nat) {
    && c in s.clients && k in s.clients[c].pending
    && s.clients[c].pending[k].State1? && s.clients[c].pending[k].recv in s.srv.ready
    && s.net.wr.queue == []
  }

  /** A step of the open server, or one more poll of the same write. */
  predicate WriterOrServer(l: Label, c: nat, k: nat) {
    || (l.IsServer() && !l.RecvClosed? && (l.RefillStream? || l.RefillDgram? ==> l.open))
    || (l.CallWriteChunk? && l.c == c && l.k == k)
  }

  lemma StarvedStep(s: Sys, l: Label, c: nat, k: nat)
    requires Inv(s) && Enabled(s, l) && WriterOrServer(l, c, k) && Starved(s, c, k)
    ensures Starved(Step(s, l), c, k) && Step(s, l).net.accepted == s.net.accepted
  {
    var id := s.clients[c].pending[k].recv;
    KnownTicket(s, Ready, id);
    if l.IsServer() {
      hide Net.SetShot, Inv;
    } else {
      assert PollExecute(State1(id), s.clients[c].cmd, s.net, c, k, l.g).out == Pending;
    }
  }

  /**
   A starved writer that does nothing but poll its own write never gets it done,
   however long the server runs.
   */
  lemma {:induction false} StarvedForEver(s: Sys, ls: seq<Label>, c: nat, k: nat)
    requires Inv(s) && ValidRun(s, ls) && Starved(s, c, k)
    requires forall l | l in ls :: WriterOrServer(l, c, k)
    ensures Starved(Run(s, ls), c, k) && Run(s, ls).net.accepted == s.net.accepted
    decreases |ls|
  {
    if ls != [] {
      assert ls[0] in ls && forall l | l in ls[1..] :: l in ls;
      StarvedStep(s, ls[0], c, k);
      StepInv(s, ls[0]);
      hide Step, Enabled, Inv, Starved;
      StarvedForEver(Step(s, ls[0]), ls[1..], c, k);
    }
  }

  /** A writer joins and writes once. */
  lemma WriterWrites(k: nat, d: Bytes) returns (s: Sys)
    ensures Reachable(s)
    ensures s == Sys(INIT, Net(Chan([], {}, 1), Chan([d], {}, 1), [], false, [d]), map[0 := NEW_CLIENT])
  {
    var s0 := Init(1, 1);
    assert ValidRun(s0, []) && s0 == Run(s0, []);
    var s1 := Step(s0, Join(0, true));
    ReachableStep(s0, Join(0, true));
    assert s1 == s0.(clients := map[0 := NEW_CLIENT]);
    FirstWrite(s1, k, d);
    ReachableStep(s1, CallWriteChunk(0, k, d, true, true));
    s := Step(s1, CallWriteChunk(0, k, d, true, true));
  }

  /** It asks for a slot to write again. */
  lemma WriterAsks(k: nat, d: Bytes, e: Bytes) returns (s: Sys)
    ensures Reachable(s)
    ensures s == Sys(INIT, Net(Chan([0], {}, 1), Chan([d], {}, 1), [Ticket(Ready, Empty, 0, k, 1)], false, [d]),
                     map[0 := NEW_CLIENT.(pending := map[k := State1(0)])])
  {
    var s2 := WriterWrites(k, d);
    SecondWrite(s2, k, d, e);
    ReachableStep(s2, CallWriteChunk(0, k, e, true, true));
    s := Step(s2, CallWriteChunk(0, k, e, true, true));
  }

  /**
   A datagram that blocks: a reachable state whose only datagram is longer than
   the initial window, and from which no run ever acknowledges anything.
   */
  lemma OversizedBlocks(k: nat, d: Bytes) returns (s: Sys)
    requires |d| > 10000
    ensures Reachable(s) && s.net.accepted == [d]
    ensures forall ls :: ValidRun(s, ls) ==> Run(s, ls).srv.acked == [] && Run(s, ls).srv.sent == []
  {
    s := WriterWrites(k, d);
    forall ls | ValidRun(s, ls)
      ensures Run(s, ls).srv.acked == [] && Run(s, ls).srv.sent == []
    {
      BlockedBehind(s, ls, 0);
    }
  }

  /**
   A datagram of up to 10000 bytes, the whole initial window, does not block: the
   same state with such a datagram, from which every run with two timers that
   accepts nothing and does not end the server acknowledges it; and a state after
   one such run.
   */
  lemma WindowFits(k: nat, d: Bytes) returns (s: Sys, t: Sys)
    requires |d| <= 10000
    ensures Reachable(s) && s.net.accepted == [d] && s.srv.acked == []
    ensures forall ls | ValidRun(s, ls) && Timers(ls) >= 2 ::
              Run(s, ls).net.accepted == [d] && Run(s, ls).srv.pc != Stopped ==> Run(s, ls).srv.acked == [d]
    ensures Reachable(t) && t.net.accepted == [d] && t.srv.acked == [d]
  {
    s := WriterWrites(k, d);
    forall ls | ValidRun(s, ls) && Run(s, ls).net.accepted == [d] && Run(s, ls).srv.pc != Stopped && Timers(ls) >= 2
      ensures Run(s, ls).srv.acked == [d]
    {
      BoundedProgress(s, ls);
    }
    t := Delivered(s, d);
  }

  /** The server drains the datagram, sends it, and has it acknowledged. */
  lemma Delivered(s: Sys, d: Bytes) returns (t: Sys)
    requires Reachable(s) && |d| <= 10000 && s.srv == INIT
    requires s.net == Net(Chan([], {}, 1), Chan([d], {}, 1), [], false, [d])
    ensures Reachable(t) && t.net.accepted == [d] && t.srv.acked == [d]
  {
    var s1 := Drained(s, d);
    ReachableStep(s1, RefillStream(true));
    var s2 := Step(s1, RefillStream(true));
    ReachableStep(s2, RefillDgram(true));
    assert [d][..1] == [d] && Fitting([d], 10000) == 1;
    var s3 := Step(s2, RefillDgram(true));
    assert s3.srv.sent == [d] && s3.srv.pc == AtSelect && s3.srv.acked == [];
    ReachableStep(s3, Timer);
    t := Step(s3, Timer);
    hide Reachable;
  }

  lemma Drained(s: Sys, d: Bytes) returns (t: Sys)
    requires Reachable(s) && s.srv == INIT
    requires s.net == Net(Chan([], {}, 1), Chan([d], {}, 1), [], false, [d])
    ensures Reachable(t) && t.net.accepted == [d] && t.srv == INIT.(pc := AtStreamRefill, write := [d])
  {
    ReachableStep(s, Timer);
    var s1 := Step(s, Timer);
    assert s1 == s.(srv := INIT.(pc := AtDrain));
    ReachableStep(s1, TryWrite);
    var s2 := Step(s1, TryWrite);
    assert [] + [d] == [d] && [d][1..] == [];
    assert s2.srv == INIT.(pc := AtDrain, write := [d]) && s2.net.wr.queue == [];
    ReachableStep(s2, TryWrite);
    t := Step(s2, TryWrite);
    hide Reachable;
  }

  /** Whatever happens later, nothing from an oversized datagram on is ever put in flight. */
  lemma BlockedBehind(s: Sys, ls: seq<Label>, i: nat)
    requires Reachable(s) && ValidRun(s, ls) && i < |s.net.accepted| && |s.net.accepted[i]| > 10000
    ensures |Run(s, ls).srv.acked| + |Run(s, ls).srv.sent| <= i
  {
    ReachableInv(s);
    RunLater(s, ls);
    ReachableRun(s, ls);
    hide Run, ValidRun, Inv;
    OversizedNeverAcknowledged(Run(s, ls), i);
  }

  lemma FirstWrite(s: Sys, k: nat, d: Bytes)
    requires s == Init(1, 1).(clients := map[0 := NEW_CLIENT])
    ensures Fine(s, CallWriteChunk(0, k, d, true, true))
    ensures Step(s, CallWriteChunk(0, k, d, true, true))
         == Sys(INIT, Net(Chan([], {}, 1), Chan([d], {}, 1), [], false, [d]), map[0 := NEW_CLIENT])
  {
    var x := PollReady(NEW_CLIENT, s.net, 0, k, true, true);
    assert x.client.pending == map[];
    assert x == Call(NEW_CLIENT.(wr := PollSender(true, Reserved)), s.net.(wr := Chan([], {0}, 1)), Done);
    hide PollReady;
    assert {0} - {0} == {};
    assert StartSend(x.client, x.net, 0, d) == Call(NEW_CLIENT, s.net.(wr := Chan([d], {}, 1), accepted := [d]), Done);
  }

  lemma SecondWrite(s: Sys, k: nat, d: Bytes, e: Bytes)
    requires s == Sys(INIT, Net(Chan([], {}, 1), Chan([d], {}, 1), [], false, [d]), map[0 := NEW_CLIENT])
    ensures Fine(s, CallWriteChunk(0, k, e, true, true))
    ensures Step(s, CallWriteChunk(0, k, e, true, true))
         == Sys(INIT, Net(Chan([0], {}, 1), Chan([d], {}, 1), [Ticket(Ready, Empty, 0, k, 1)], false, [d]),
                map[0 := NEW_CLIENT.(pending := map[k := State1(0)])])
  {
    var c := Insert(NEW_CLIENT, k, State0(Some(Ready)));
    assert {} + {0} - {0} == {};
    var x := PollExecute(State0(Some(Ready)), NEW_CLIENT.cmd, s.net, 0, k, true);
    assert x == Exec(State1(0), NEW_CLIENT.cmd,
                     s.net.(cmd := Chan([0], {}, 1), tickets := [Ticket(Ready, Empty, 0, k, 1)]), Pending);
    assert c.pending[k := State1(0)] == map[k := State1(0)];
  }

  /** The server takes the datagram before it reads the request. */
  lemma ServerDrainsFirst(k: nat, d: Bytes, e: Bytes) returns (s: Sys)
    ensures Reachable(s) && s.srv == INIT.(pc := AtStreamRefill, write := [d])
    ensures s.net == Net(Chan([0], {}, 1), Chan([], {}, 1), [Ticket(Ready, Empty, 0, k, 1)], false, [d])
    ensures s.clients == map[0 := NEW_CLIENT.(pending := map[k := State1(0)])]
  {
    var s2 := WriterAsks(k, d, e);
    ReachableStep(s2, Timer);
    var s3 := Step(s2, Timer);
    assert s3 == s2.(srv := INIT.(pc := AtDrain));
    ReachableStep(s3, TryWrite);
    hide Reachable;
    FirstTry(s3, k, d);
    var s4 := Step(s3, TryWrite);
    ReachableStep(s4, TryWrite);
    SecondTry(s4, k, d);
    s := Step(s4, TryWrite);
    hide *;
  }

  lemma FirstTry(s: Sys, k: nat, d: Bytes)
    requires s.srv == INIT.(pc := AtDrain)
    requires s.net == Net(Chan([0], {}, 1), Chan([d], {}, 1), [Ticket(Ready, Empty, 0, k, 1)], false, [d])
    ensures Enabled(s, TryWrite)
    ensures Step(s, TryWrite)
         == Sys(INIT.(pc := AtDrain, write := [d]), s.net.(wr := Chan([], {}, 1)), s.clients)
  {
    assert s.net.FillAll([], ReadyDone).tickets == s.net.tickets;
    assert [d][1..] == [] && [] + [d] == [d];
  }

  lemma SecondTry(s: Sys, k: nat, d: Bytes)
    requires s.srv == INIT.(pc := AtDrain, write := [d])
    requires s.net == Net(Chan([0], {}, 1), Chan([], {}, 1), [Ticket(Ready, Empty, 0, k, 1)], false, [d])
    ensures Enabled(s, TryWrite)
    ensures Step(s, TryWrite) == Sys(INIT.(pc := AtStreamRefill, write := [d]), s.net, s.clients)
  {
    assert s.net.FillAll([], FlushDone).tickets == s.net.tickets;
  }

  /**
   A run of a single writer that starves: it fills the channel of capacity 1,
   asks for a slot, and the server empties the channel before it reads the request.
   */
  lemma SingleWriterStarves(k: nat, d: Bytes, e: Bytes) returns (s: Sys)
    ensures Reachable(s) && s.clients.Keys == {0} && Starved(s, 0, k) && s.net.accepted == [d]
  {
    var s5 := ServerDrainsFirst(k, d, e);
    s := ServerReadsLate(s5, k);
  }

  lemma ServerReadsLate(s5: Sys, k: nat) returns (s: Sys)
    requires Reachable(s5) && s5.srv.pc == AtStreamRefill && s5.net.wr.queue == [] && s5.net.cmd.queue == [0]
    requires |s5.net.tickets| > 0 && s5.net.tickets[0].req == Ready
    requires 0 in s5.clients && k in s5.clients[0].pending && s5.clients[0].pending[k] == State1(0)
    ensures Reachable(s) && s.clients == s5.clients && Starved(s, 0, k) && s.net.accepted == s5.net.accepted
  {
    ReachableStep(s5, RefillStream(true));
    var s6 := Step(s5, RefillStream(true));
    ReachableStep(s6, RefillDgram(true));
    var s7 := Step(s6, RefillDgram(true));
    ReachableStep(s7, RecvRequest);
    s := Step(s7, RecvRequest);
    RequestParts(s7.srv, s7.net, 0);
    hide OnRequest, Reachable;
  }
}
