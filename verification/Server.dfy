/**
 The server task, cut at the operations on shared channels: between two of its
 steps the clients may do anything.
 */
module Server {
  import opened Basics
  import opened Channels

  const INITIAL_CWND: nat := 10000

  const MAX_SEND_DGRAMS: nat := 2

  /** Where the loop is: before `select!`, at `try_recv`, at the two refills, or past the end. */
  datatype Pc = AtSelect | AtDrain | AtStreamRefill | AtDgramRefill | Stopped

  /**
   The variables of the task. `acked` is the history of the datagrams taken off
   `sent`, and `lost` what was still in the write channel when the task ended.
   */
  datatype Srv = Srv(pc: Pc, cwnd: nat, write: seq<Bytes>, sent: seq<Bytes>, waiting: Option<Bytes>,
                     flush: seq<nat>, ready: seq<nat>, acked: seq<Bytes>, lost: seq<Bytes>)

  datatype Both = Both(srv: Srv, net: Net)

  const INIT: Srv := Srv(AtSelect, INITIAL_CWND, [], [], None, [], [], [], [])

  /** Lines 476-482: the waiting datagram goes first, and an occupied slot skips the drain. */
  function TakeWaiting(s: Srv): Srv {
    var s1 := if |s.write| < MAX_SEND_DGRAMS then s.(write := s.write + Opt(s.waiting), waiting := None) else s;
    s1.(pc := if s1.waiting.None? then AtDrain else AtStreamRefill)
  }

  /** The request branch of `select!`. */
  function OnRequest(s: Srv, net: Net): Both
    requires net.cmd.queue != []
  {
    var id := net.cmd.queue[0];
    var net1 := net.(cmd := net.cmd.(queue := net.cmd.queue[1..]));
    if id >= |net.tickets| then Both(TakeWaiting(s), net1) else
    match net.tickets[id].req
    case Write(buf) => Both(TakeWaiting(s), net1.SetShot(id, Filled(Written(|buf|))))
    case Ready => Both(TakeWaiting(s.(ready := s.ready + [id])), net1)
    case Flush => Both(TakeWaiting(s.(flush := s.flush + [id])), net1)
  }

  /** The timer branch of `select!`: one datagram in flight is acknowledged. */
  function OnTimer(s: Srv): Srv {
    TakeWaiting(if s.sent == [] then s else
                s.(sent := s.sent[1..], cwnd := s.cwnd + |s.sent[0]|, acked := s.acked + [s.sent[0]]))
  }

  /** One `try_recv` of the drain loop. */
  function TryRecv(s: Srv, net: Net): Both {
    if net.wr.queue == [] then
      Both(s.(flush := [], pc := AtStreamRefill), net.FillAll(s.flush, FlushDone))
    else
      var buf := net.wr.queue[0];
      var net1 := net.(wr := net.wr.(queue := net.wr.queue[1..])).FillAll(s.ready, ReadyDone);
      var s1 := s.(ready := []);
      if |s.write| < MAX_SEND_DGRAMS then Both(s1.(write := s.write + [buf]), net1)
      else Both(s1.(waiting := Some(buf), pc := AtStreamRefill), net1)
  }

  /** The end of the task: everything it holds is dropped. */
  function Stop(s: Srv, net: Net): Both {
    Both(s.(pc := Stopped, flush := [], ready := [], lost := net.wr.queue), net.DropAll())
  }

  /** How many datagrams at the front fit into `cwnd` one after another. */
  function Fitting(ds: seq<Bytes>, cwnd: nat): (n: nat)
    ensures n <= |ds|
  {
    if ds == [] || |ds[0]| > cwnd then 0 else 1 + Fitting(ds[1..], cwnd - |ds[0]|)
  }

  /** The sizes up to the `n`-th fit, and the next one does not. */
  lemma {:induction false} FittingIsExact(ds: seq<Bytes>, cwnd: nat)
    ensures var n := Fitting(ds, cwnd);
            && |Flat(ds[..n])| <= cwnd
            && (n < |ds| ==> |Flat(ds[..n])| + |ds[n]| > cwnd)
  {
    if ds != [] && |ds[0]| <= cwnd {
      var n := Fitting(ds[1..], cwnd - |ds[0]|);
      FittingIsExact(ds[1..], cwnd - |ds[0]|);
      assert ds[..n + 1] == [ds[0]] + ds[1..][..n];
      assert Flat(ds[..n + 1]) == ds[0] + Flat(ds[1..][..n]);
    }
  }

  /** The send loop at the end of an iteration. */
  function SendPhase(s: Srv): Srv {
    var n := Fitting(s.write, s.cwnd);
    FittingIsExact(s.write, s.cwnd);
    s.(write := s.write[n..], sent := s.sent + s.write[..n], cwnd := s.cwnd - |Flat(s.write[..n])|, pc := AtSelect)
  }
}
