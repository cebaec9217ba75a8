/** `QuicSendStream` and `QuicWriteDgram`: the calls a client makes. */
module Clients {
  import opened Basics
  import opened Channels
  import opened Commands

  /**
   A client. `QuicWriteDgram` uses all three fields; `QuicSendStream` has no
   datagram sender, which it never uses.
   */
  datatype Client = Client(cmd: PollSender, wr: PollSender, pending: map<nat, Command>)

  /** The three kinds of operation that keep a command under a key. */
  datatype Kind = Writing | Flushing | Readying

  datatype CallOut = Waiting | Done | Wrote(n: nat) | Failed | Panicked

  datatype Call = Call(client: Client, net: Net, out: CallOut)

  function KindOf(q: Request): Kind {
    match q
    case Write(_) => Writing
    case Flush => Flushing
    case Ready => Readying
  }

  function Insert(c: Client, key: nat, cmd: Command): Client {
    c.(pending := c.pending[key := cmd])
  }

  function Remove(c: Client, key: nat): Client {
    c.(pending := c.pending - {key})
  }

  /** Polls the command under `key`, which must be there. */
  function Advance(c: Client, net: Net, me: nat, key: nat, grant: bool): (Client, Net, Outcome)
    requires key in c.pending
  {
    var x := PollExecute(c.pending[key], c.cmd, net, me, key, grant);
    (Insert(c.(cmd := x.sender), key, x.cmd), x.net, x.out)
  }

  function PollWrite(c: Client, net: Net, me: nat, key: nat, buf: Bytes, grant: bool): Call {
    var c1 := if key in c.pending then c else Insert(c, key, State0(Some(Write(buf))));
    var (c2, net2, out) := Advance(c1, net, me, key, grant);
    match out
    case Success(Written(n)) => Call(Remove(c2, key), net2, Wrote(n))
    case Success(_) => Call(c2, net2, Panicked)
    case Failure(_) => Call(Remove(c2, key), net2, Failed)
    case Pending => Call(c2, net2, Waiting)
    case Panic => Call(c2, net2, Panicked)
  }

  function PollFlush(c: Client, net: Net, me: nat, key: nat, grant: bool): Call {
    var c1 := if key in c.pending then c else Insert(c, key, State0(Some(Flush)));
    var (c2, net2, out) := Advance(c1, net, me, key, grant);
    match out
    case Success(FlushDone) => Call(Remove(c2, key), net2, Done)
    case Success(_) => Call(c2, net2, Panicked)
    case Failure(_) => Call(Remove(c2, key), net2, Failed)
    case Pending => Call(c2, net2, Waiting)
    case Panic => Call(c2, net2, Panicked)
  }

  /** The second half of `poll_ready`: a slot of the datagram channel. */
  function ReserveWrite(c: Client, net: Net, me: nat, key: nat, grant: bool): Call {
    var v := Reserve(c.wr, net.wr, me, net.gone, grant);
    var c1, net1 := c.(wr := v.sender), net.(wr := v.chan);
    match v.out
    case Waits => Call(c1, net1, Waiting)
    case Granted => Call(Remove(c1, key), net1, Done)
    case Refused => Call(Remove(c1, key), net1, Failed)
  }

  /** `poll_ready`. An error of the command leaves its entry in the map. */
  function PollReady(c: Client, net: Net, me: nat, key: nat, grant: bool, grantWr: bool): Call {
    if key !in c.pending && !c.wr.open then Call(c, net, Failed) else
    var c1 := if key in c.pending then c
              else Insert(c, key, if net.wr.Free() > 0 then Terminated else State0(Some(Ready)));
    if c1.pending[key].Terminated? then ReserveWrite(c1, net, me, key, grantWr) else
    var (c2, net2, out) := Advance(c1, net, me, key, grant);
    match out
    case Success(ReadyDone) => ReserveWrite(c2, net2, me, key, grantWr)
    case Success(_) => Call(c2, net2, Panicked)
    case Failure(_) => Call(c2, net2, Failed)
    case Pending => Call(c2, net2, Waiting)
    case Panic => Call(c2, net2, Panicked)
  }

  /** `start_send`, and the end of `poll_write_chunk`. */
  function StartSend(c: Client, net: Net, me: nat, dgram: Bytes): Call {
    var w := SendItem(c.wr, net.wr, me, dgram);
    var c1, net1 := c.(wr := w.sender), net.(wr := w.chan);
    match w.out
    case Sent => Call(c1, net1.(accepted := net.accepted + [dgram]), Done)
    case Rejected => Call(c1, net1, Failed)
    case Misuse => Call(c1, net1, Panicked)
  }

  function PollWriteChunk(c: Client, net: Net, me: nat, key: nat, dgram: Bytes, grant: bool, grantWr: bool): Call {
    var x := PollReady(c, net, me, key, grant, grantWr);
    if x.out == Done then StartSend(x.client, x.net, me, dgram) else x
  }

  function PollClose(c: Client, net: Net, me: nat, key: nat, grant: bool, grantWr: bool): Call {
    var c1 := if c.cmd.IsClosed() then c else c.(cmd := c.cmd.Close());
    PollReady(c1, net, me, key, grant, grantWr)
  }

  class SendStream {
    const id: nat
    const world: World
    var sender: PollSender
    var cmdPending: map<nat, Command>

    constructor (id: nat, world: World)
      ensures this.id == id && this.world == world
      ensures View() == Client(PollSender(true, Idle), PollSender(false, Closed), map[])
    {
      this.id, this.world, sender, cmdPending := id, world, PollSender(true, Idle), map[];
    }

    function View(): Client
      reads this
    {
      Client(sender, PollSender(false, Closed), cmdPending)
    }

    method Write(key: nat, buf: Bytes, grant: bool) returns (out: CallOut)
      modifies this, world
      ensures Call(View(), world.net, out) == PollWrite(old(View()), old(world.net), id, key, buf, grant)
    {
      if key !in cmdPending {
        cmdPending := cmdPending[key := State0(Some(Request.Write(buf)))];
      }
      var cmd, res, rounds;
      cmd, sender, res, rounds := Execute(world, cmdPending[key], sender, id, key, grant);
      cmdPending := cmdPending[key := cmd];
      match res {
        case Success(Written(n)) =>
          out := Wrote(n);
        case Success(_) =>
          return Panicked;
        case Failure(_) =>
          out := Failed;
        case Pending =>
          out := Waiting;
        case Panic =>
          return Panicked;
      }
      if out != Waiting {
        cmdPending := cmdPending - {key};
      }
    }
  }

  class WriteDgram {
    const id: nat
    const world: World
    var cmdSender: PollSender
    var cmdPending: map<nat, Command>
    var writeSender: PollSender

    constructor (id: nat, world: World)
      ensures this.id == id && this.world == world
      ensures View() == Client(PollSender(true, Idle), PollSender(true, Idle), map[])
    {
      this.id, this.world, cmdPending := id, world, map[];
      cmdSender, writeSender := PollSender(true, Idle), PollSender(true, Idle);
    }

    function View(): Client
      reads this
    {
      Client(cmdSender, writeSender, cmdPending)
    }

    method Ready(key: nat, grant: bool, grantWr: bool) returns (out: CallOut)
      modifies this, world
      ensures Call(View(), world.net, out) == PollReady(old(View()), old(world.net), id, key, grant, grantWr)
    {
      if key !in cmdPending {
        if writeSender.open {
          if world.net.wr.Free() > 0 {
            cmdPending := cmdPending[key := Terminated];
          } else {
            cmdPending := cmdPending[key := State0(Some(Request.Ready))];
          }
        } else {
          return Failed;
        }
      }
      if !cmdPending[key].Terminated? {
        var cmd, res, rounds;
        cmd, cmdSender, res, rounds := Execute(world, cmdPending[key], cmdSender, id, key, grant);
        cmdPending := cmdPending[key := cmd];
        match res {
          case Success(ReadyDone) =>
          case Success(_) =>
            return Panicked;
          case Failure(_) =>
            return Failed;
          case Pending =>
            return Waiting;
          case Panic =>
            return Panicked;
        }
      }
      var v := Reserve(writeSender, world.net.wr, id, world.net.gone, grantWr);
      writeSender := v.sender;
      world.net := world.net.(wr := v.chan);
      if v.out == Waits {
        return Waiting;
      }
      out := if v.out == Granted then Done else Failed;
      cmdPending := cmdPending - {key};
    }

    method Flush(key: nat, grant: bool) returns (out: CallOut)
      modifies this, world
      ensures Call(View(), world.net, out) == PollFlush(old(View()), old(world.net), id, key, grant)
    {
      if key !in cmdPending {
        cmdPending := cmdPending[key := State0(Some(Request.Flush))];
      }
      var cmd, res, rounds;
      cmd, cmdSender, res, rounds := Execute(world, cmdPending[key], cmdSender, id, key, grant);
      cmdPending := cmdPending[key := cmd];
      match res {
        case Success(FlushDone) =>
          out := Done;
        case Success(_) =>
          return Panicked;
        case Failure(_) =>
          out := Failed;
        case Pending =>
          return Waiting;
        case Panic =>
          return Panicked;
      }
      cmdPending := cmdPending - {key};
    }

    method Send(dgram: Bytes) returns (out: CallOut)
      modifies this, world
      ensures Call(View(), world.net, out) == StartSend(old(View()), old(world.net), id, dgram)
    {
      var w := SendItem(writeSender, world.net.wr, id, dgram);
      writeSender := w.sender;
      world.net := world.net.(wr := w.chan);
      match w.out {
        case Sent =>
          world.net := world.net.(accepted := world.net.accepted + [dgram]);
          out := Done;
        case Rejected =>
          out := Failed;
        case Misuse =>
          out := Panicked;
      }
    }

    method WriteChunk(key: nat, dgram: Bytes, grant: bool, grantWr: bool) returns (out: CallOut)
      modifies this, world
      ensures Call(View(), world.net, out)
           == PollWriteChunk(old(View()), old(world.net), id, key, dgram, grant, grantWr)
    {
      out := Ready(key, grant, grantWr);
      if out == Done {
        out := Send(dgram);
      }
    }

    method Close(key: nat, grant: bool, grantWr: bool) returns (out: CallOut)
      modifies this, world
      ensures Call(View(), world.net, out) == PollClose(old(View()), old(world.net), id, key, grant, grantWr)
    {
      if !cmdSender.IsClosed() {
        cmdSender := cmdSender.Close();
      }
      out := Ready(key, grant, grantWr);
    }
  }
}
