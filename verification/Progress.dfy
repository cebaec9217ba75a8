/** How fast the server empties its pipeline, and what it can never deliver. */
module Progress {
  import opened Basics
  import opened Channels
  import opened Server
  import opened Actor
  import opened CallEffects
  import opened Invariant
  import opened Evolution

  /** The accepted datagrams that are not acknowledged and not lost. */
  function Outstanding(s: Sys): nat {
    |s.srv.sent| + |s.srv.write| + |Opt(s.srv.waiting)| + |s.net.wr.queue|
  }

  /** How often the timer branch is taken. */
  function Timers(ls: seq<Label>): nat {
    if ls == [] then 0 else (if ls[0].Timer? then 1 else 0) + Timers(ls[1..])
  }

  /** Every accepted datagram fits into the initial window. */
  predicate AllFit(s: Sys) {
    forall i | 0 <= i < |s.net.accepted| :: |s.net.accepted[i]| <= 10000
  }

  /** How many datagrams come before the first one that is longer than the initial window. */
  function Deliverable(ds: seq<Bytes>): (n: nat)
    ensures n <= |ds|
  {
    if ds == [] || |ds[0]| > 10000 then 0 else 1 + Deliverable(ds[1..])
  }

  lemma {:induction false} DeliverableIs(ds: seq<Bytes>)
    ensures forall i | 0 <= i < Deliverable(ds) :: |ds[i]| <= 10000
    ensures Deliverable(ds) < |ds| ==> |ds[Deliverable(ds)]| > 10000
  {
    if ds != [] && |ds[0]| <= 10000 {
      DeliverableIs(ds[1..]);
      forall i | 0 <= i < Deliverable(ds)
        ensures |ds[i]| <= 10000
      {
        if i > 0 {
          assert ds[i] == ds[1..][i - 1];
        }
      }
    }
  }

  /** The datagrams that are still to be acknowledged, up to the first that never will be. */
  function Owing(s: Sys): nat {
    var d, a := Deliverable(s.net.accepted), |s.srv.acked|;
    if a < d then d - a else 0
  }

  /**
   The next timer finds a datagram in flight, if any is owing. It may fail only
   between an arrival and the next drain.
   */
  predicate Settled(s: Sys) {
    Owing(s) == 0 ||
    match s.srv.pc
    case AtSelect => s.srv.sent != []
    case AtDrain => true
    case AtStreamRefill => s.srv.sent != [] || s.srv.write != [] || s.net.wr.queue == []
    case AtDgramRefill => s.srv.sent != [] || s.srv.write != [] || s.net.wr.queue == []
    case Stopped => true
  }

  /** An upper bound on the timers it takes until all that is owing is acknowledged. */
  function Measure(s: Sys): nat {
    Owing(s) + if Settled(s) then 0 else 1
  }

  /** A step that accepts nothing and does not end the server. */
  ghost predicate Quiet(s: Sys, l: Label)
    requires Enabled(s, l)
  {
    Step(s, l).net.accepted == s.net.accepted && Step(s, l).srv.pc != Stopped
  }

  /** When the send phase leaves nothing in flight, nothing is left to send. */
  lemma NothingInFlight(s: Srv)
    requires Shape(s) && Credit(s) && s.pc == AtSelect && s.sent == []
    requires s.write != [] ==> |s.write[0]| <= 10000
    ensures s.write == [] && s.waiting == None
  {
  }

  lemma FirstToSendFits(s: Sys)
    requires Pipeline(s.srv, s.net) == s.net.accepted && Owing(s) > 0 && s.srv.sent == []
    ensures s.srv.write != [] ==> |s.srv.write[0]| <= 10000
  {
    DeliverableIs(s.net.accepted);
    if s.srv.write != [] {
      assert s.net.accepted[|s.srv.acked|] == s.srv.write[0];
    }
  }

  lemma TimerMeasure(s: Sys)
    requires Inv(s) && s.srv.pc == AtSelect
    ensures Settled(Step(s, Timer))
    ensures Owing(Step(s, Timer)) == if s.srv.sent != [] && Owing(s) > 0 then Owing(s) - 1 else Owing(s)
    ensures s.srv.sent == [] && Owing(s) > 0 ==> !Settled(s)
  {
    hide Deliverable;
  }

  lemma RequestMeasure(s: Sys)
    requires Inv(s) && Enabled(s, RecvRequest)
    ensures Settled(Step(s, RecvRequest)) && Owing(Step(s, RecvRequest)) == Owing(s)
  {
    hide Deliverable;
  }

  lemma RefillMeasure(s: Sys)
    requires Inv(s) && s.srv.pc == AtDgramRefill
    ensures Measure(Step(s, RefillDgram(true))) <= Measure(s)
  {
    SendPhaseShape(s.srv);
    SendPipeline(s.srv, s.net);
    SendParts(s.srv);
    hide SendPhase, Deliverable, Flat, Measure, Settled;
    RefillSettles(s, SendPhase(s.srv));
  }

  lemma SendParts(s: Srv)
    ensures var s' := SendPhase(s);
            && s'.pc == AtSelect && s'.acked == s.acked
            && (s'.sent == [] ==> s.sent == [] && s'.write == s.write)
  {
    hide Flat;
  }

  lemma RefillSettles(s: Sys, s': Srv)
    requires Inv(s) && s.srv.pc == AtDgramRefill
    requires Shape(s') && Credit(s') && Pipeline(s', s.net) == s.net.accepted
    requires s'.pc == AtSelect && s'.acked == s.srv.acked
    requires s'.sent == [] ==> s.srv.sent == [] && s'.write == s.srv.write
    ensures Measure(Sys(s', s.net, s.clients)) <= Measure(s)
  {
    hide Deliverable;
    var t := Sys(s', s.net, s.clients);
    if s'.sent == [] && Owing(t) > 0 {
      FirstToSendFits(t);
      NothingInFlight(s');
    }
  }

  /** A call that accepts nothing leaves the server and the write queue alone. */
  lemma QuietCall(s: Sys, l: Label)
    requires Inv(s) && Enabled(s, l) && !l.IsServer() && Quiet(s, l)
    ensures Step(s, l).srv == s.srv && Step(s, l).net.wr.queue == s.net.wr.queue
  {
    if l.IsCall() {
      CallStepMoves(s.clients[l.c], s.net, l);
      hide CallStep;
    }
  }

  /** Each timer takes one off the measure, and no other step adds to it. */
  lemma MeasureStep(s: Sys, l: Label)
    requires Inv(s) && Enabled(s, l) && Quiet(s, l)
    ensures var due := Measure(s) - (if l.Timer? then 1 else 0);
            Measure(Step(s, l)) <= if due < 0 then 0 else due
  {
    hide Deliverable;
    if !l.IsServer() {
      QuietCall(s, l);
      hide Step, Inv;
    } else {
      match l
      case Timer => TimerMeasure(s); hide OnTimer, Inv;
      case RecvRequest => RequestMeasure(s); hide OnRequest, Inv;
      case TryWrite =>
      case RefillDgram(open) => RefillMeasure(s); hide SendPhase, Inv;
      case _ => hide Inv;
    }
  }

  /** What is accepted at the end was accepted all along, and the server never stopped. */
  lemma QuietRun(s: Sys, ls: seq<Label>)
    requires Inv(s) && ls != [] && ValidRun(s, ls)
    requires Run(s, ls).net.accepted == s.net.accepted && Run(s, ls).srv.pc != Stopped
    ensures var s1 := Step(s, ls[0]);
            && Quiet(s, ls[0]) && Inv(s1) && ValidRun(s1, ls[1..])
            && Run(s, ls) == Run(s1, ls[1..])
            && s1.net.accepted == s.net.accepted
  {
    var s1 := Step(s, ls[0]);
    StepInv(s, ls[0]);
    StepLater(s, ls[0]);
    RunLater(s1, ls[1..]);
    StaysStopped(s1, ls[1..]);
    hide Step, Enabled, Inv;
  }

  lemma {:induction false} StaysStopped(s: Sys, ls: seq<Label>)
    requires ValidRun(s, ls)
    ensures s.srv.pc == Stopped ==> Run(s, ls).srv.pc == Stopped
    decreases |ls|
  {
    if ls != [] && s.srv.pc == Stopped {
      assert Step(s, ls[0]).srv == s.srv by {
        hide CallStep;
      }
      hide Step, Enabled;
      StaysStopped(Step(s, ls[0]), ls[1..]);
    }
  }

  lemma {:induction false} MeasureRun(s: Sys, ls: seq<Label>)
    requires Inv(s) && ValidRun(s, ls)
    requires Run(s, ls).net.accepted == s.net.accepted && Run(s, ls).srv.pc != Stopped
    ensures Measure(s) <= Timers(ls) ==> Measure(Run(s, ls)) == 0
    ensures Measure(Run(s, ls)) <= Measure(s)
    decreases |ls|
  {
    if ls != [] {
      QuietRun(s, ls);
      MeasureStep(s, ls[0]);
      MeasureRun(Step(s, ls[0]), ls[1..]);
      hide Step, Enabled, Inv, Measure;
    } else {
      hide Inv, Measure;
    }
  }

  /**
   What is acknowledged, for datagrams of any length. From any reachable state:
   after any run with one timer more than there are datagrams owing, that accepts
   no new datagram and does not end the server, however its steps interleave,
   exactly the datagrams before the first oversized one are acknowledged.
   */
  lemma PrefixAcknowledged(s: Sys, ls: seq<Label>)
    requires Reachable(s) && ValidRun(s, ls)
    requires Run(s, ls).net.accepted == s.net.accepted && Run(s, ls).srv.pc != Stopped
    requires Timers(ls) >= Owing(s) + 1
    ensures Run(s, ls).srv.acked == s.net.accepted[..Deliverable(s.net.accepted)]
    ensures forall i | 0 <= i < |Run(s, ls).srv.acked| :: |s.net.accepted[i]| <= 10000
    ensures |Run(s, ls).srv.acked| < |s.net.accepted| ==> |s.net.accepted[|Run(s, ls).srv.acked|]| > 10000
  {
    DeliverableIs(s.net.accepted);
    ReachableInv(s);
    MeasureRun(s, ls);
    ReachableRun(s, ls);
    SentFits(Run(s, ls));
    ReachableInv(Run(s, ls));
    hide Run, ValidRun, Reachable, Deliverable;
    AckedFirst(Run(s, ls));
  }

  /**
   Bounded progress. From any reachable state with N datagrams outstanding, all
   of them at most as long as the initial window: after any run with N + 1 timers
   that accepts no new datagram and does not end the server, however its steps
   interleave, everything that was accepted is acknowledged.
   */
  lemma BoundedProgress(s: Sys, ls: seq<Label>)
    requires Reachable(s) && AllFit(s) && ValidRun(s, ls)
    requires Run(s, ls).net.accepted == s.net.accepted && Run(s, ls).srv.pc != Stopped
    requires Timers(ls) >= Outstanding(s) + 1
    ensures Run(s, ls).srv.acked == s.net.accepted
    ensures Outstanding(Run(s, ls)) == 0
  {
    OwingBound(s, ls);
    PrefixAcknowledged(s, ls);
    DeliverableIs(s.net.accepted);
    ReachableRun(s, ls);
    ReachableInv(Run(s, ls));
    hide Run, ValidRun, Reachable, Deliverable;
    EmptyPipeline(Run(s, ls));
  }

  lemma OwingBound(s: Sys, ls: seq<Label>)
    requires Reachable(s) && ValidRun(s, ls) && Run(s, ls).srv.pc != Stopped
    ensures Owing(s) <= Outstanding(s)
  {
    ReachableInv(s);
    StaysStopped(s, ls);
    hide Run, ValidRun, Reachable, Deliverable;
    AckedFirst(s);
    assert |s.net.accepted| == |s.srv.acked| + Outstanding(s);
  }

  lemma EmptyPipeline(s: Sys)
    requires Inv(s) && s.srv.pc != Stopped
    ensures Outstanding(s) == 0 <==> s.srv.acked == s.net.accepted
  {
    assert |s.net.accepted| == |s.srv.acked| + Outstanding(s);
  }

  /**
   A datagram longer than the initial window is never acknowledged or put in
   flight, in any run, nor is any datagram accepted after it.
   */
  lemma OversizedNeverAcknowledged(s: Sys, i: nat)
    requires Reachable(s) && i < |s.net.accepted| && |s.net.accepted[i]| > 10000
    ensures |s.srv.acked| + |s.srv.sent| <= i
  {
    DeliverableIs(s.net.accepted);
    SentFits(s);
  }

  /** All that has been sent comes before the first oversized datagram. */
  lemma SentFits(s: Sys)
    requires Reachable(s)
    ensures |s.srv.acked| + |s.srv.sent| <= Deliverable(s.net.accepted)
  {
    ReachableInv(s);
    var cmdCap: nat, wrCap: nat, ls :| ValidRun(Init(cmdCap, wrCap), ls) && s == Run(Init(cmdCap, wrCap), ls);
    var init := Init(cmdCap, wrCap);
    assert Inv(init) by {
      assert init == Run(init, []);
      ReachableInv(init);
    }
    AckedFit(init, ls);
    hide Run, ValidRun, Reachable;
    SentWithin(s);
  }

  lemma SentWithin(s: Sys)
    requires Inv(s) && AckedFits(s.srv)
    ensures |s.srv.acked| + |s.srv.sent| <= Deliverable(s.net.accepted)
  {
    var ds, n := s.net.accepted, |s.srv.acked| + |s.srv.sent|;
    DeliverableIs(ds);
    hide Deliverable;
    assert n <= |ds|;
    forall i | 0 <= i < n
      ensures |ds[i]| <= 10000
    {
      if i < |s.srv.acked| {
        assert ds[i] == s.srv.acked[i];
      } else {
        assert ds[i] == s.srv.sent[i - |s.srv.acked|];
        PartOfFlat(s.srv.sent, i - |s.srv.acked|);
      }
    }
  }

  lemma {:induction false} PartOfFlat(ds: seq<Bytes>, i: nat)
    requires i < |ds|
    ensures |ds[i]| <= |Flat(ds)|
  {
    if i > 0 {
      PartOfFlat(ds[1..], i - 1);
    }
  }

  predicate AckedFits(s: Srv) {
    forall i | 0 <= i < |s.acked| :: |s.acked[i]| <= 10000
  }

  lemma AckedFirst(s: Sys)
    requires Pipeline(s.srv, s.net) == s.net.accepted
    ensures |s.srv.acked| <= |s.net.accepted|
    ensures forall i | 0 <= i < |s.srv.acked| :: s.srv.acked[i] == s.net.accepted[i]
  {
  }

  lemma {:induction false} AckedFit(s: Sys, ls: seq<Label>)
    requires Inv(s) && ValidRun(s, ls) && AckedFits(s.srv)
    ensures AckedFits(Run(s, ls).srv)
    decreases |ls|
  {
    if ls != [] {
      AckedFitStep(s, ls[0]);
      StepInv(s, ls[0]);
      hide Step, Enabled, Inv, AckedFits;
      AckedFit(Step(s, ls[0]), ls[1..]);
    }
  }

  lemma AckedFitStep(s: Sys, l: Label)
    requires Inv(s) && Enabled(s, l) && AckedFits(s.srv)
    ensures AckedFits(Step(s, l).srv)
  {
    if l.Timer? && s.srv.sent != [] {
      assert |Flat(s.srv.sent)| >= |s.srv.sent[0]|;
    }
    hide CallStep, Inv, Net.SetShot;
  }

  /**
   Exactly when: after enough timers in a run that accepts nothing more,
   everything is acknowledged if and only if every accepted datagram fits.
   */
  lemma ProgressExactly(s: Sys, ls: seq<Label>)
    requires Reachable(s) && ValidRun(s, ls)
    requires Run(s, ls).net.accepted == s.net.accepted && Run(s, ls).srv.pc != Stopped
    requires Timers(ls) >= Outstanding(s) + 1
    ensures Run(s, ls).srv.acked == s.net.accepted <==> AllFit(s)
  {
    OwingBound(s, ls);
    PrefixAcknowledged(s, ls);
    DeliverableIs(s.net.accepted);
    hide Run, ValidRun, Reachable, Deliverable;
    assert s.net.accepted[..|s.net.accepted|] == s.net.accepted;
  }
}
