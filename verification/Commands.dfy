/** `Command`: a request and its answer, as a state machine that is polled. */
module Commands {
  import opened Basics
  import opened Channels

  datatype Command = State0(msg: Option<Request>) | State1(recv: nat) | Terminated

  datatype RequestError = NoRequest | SendError | RecvError

  /** What a poll of a command returns; `Panic` stands for unwinding. */
  datatype Outcome = Pending | Success(r: Response) | Failure(e: RequestError) | Panic

  datatype Exec = Exec(cmd: Command, sender: PollSender, net: Net, out: Outcome)

  /** How many states are still ahead of a command. */
  function Rank(c: Command): nat {
    match c
    case State0(_) => 2
    case State1(_) => 1
    case Terminated => 0
  }

  /** A poll of the answer. A second poll after the end panics. */
  function PollAnswer(id: nat, sender: PollSender, net: Net): Exec {
    match net.ShotOf(id)
    case Empty => Exec(State1(id), sender, net, Pending)
    case Filled(r) => Exec(Terminated, sender, net.SetShot(id, Spent(Some(r))), Success(r))
    case Dropped => Exec(State1(id), sender, net.SetShot(id, Spent(None)), Failure(RecvError))
    case Spent(_) => Exec(State1(id), sender, net, Panic)
  }

  /** The request of client `me` under `key` goes into the command channel. */
  function Enqueue(q: Request, sender: PollSender, net: Net, me: nat, key: nat): Exec {
    var id := |net.tickets|;
    var w := SendItem(sender, net.cmd, me, id);
    match w.out
    case Sent =>
      var ticket := Ticket(q, Empty, me, key, |net.accepted|);
      Exec(State1(id), w.sender, net.(cmd := w.chan, tickets := net.tickets + [ticket]), Pending)
    case Rejected => Exec(State0(None), w.sender, net.(cmd := w.chan), Failure(SendError))
    case Misuse => Exec(State0(None), w.sender, net.(cmd := w.chan), Panic)
  }

  /** One poll, as one expression. */
  function PollExecute(cmd: Command, sender: PollSender, net: Net, me: nat, key: nat, grant: bool): Exec {
    match cmd
    case Terminated => Exec(cmd, sender, net, Panic)
    case State1(id) => PollAnswer(id, sender, net)
    case State0(msg) =>
      var v := Reserve(sender, net.cmd, me, net.gone, grant);
      var net1 := net.(cmd := v.chan);
      match v.out
      case Waits => Exec(cmd, v.sender, net1, Pending)
      case Refused => Exec(cmd, v.sender, net1, Failure(SendError))
      case Granted =>
        match msg
        case None => Exec(cmd, v.sender, net1, Failure(NoRequest))
        case Some(q) =>
          var x := Enqueue(q, v.sender, net1, me, key);
          if x.out == Pending then PollAnswer(x.cmd.recv, x.sender, x.net) else x
  }

  /** The objects that the clients and the server share. */
  class World {
    var net: Net

    constructor (net: Net)
      ensures this.net == net
    {
      this.net := net;
    }
  }

  /**
   The loop of `poll_execute`. It computes `PollExecute`, and it goes round at
   most twice.
   */
  method Execute(w: World, cmd0: Command, sender0: PollSender, me: nat, key: nat, grant: bool)
    returns (cmd: Command, sender: PollSender, out: Outcome, rounds: nat)
    modifies w
    ensures Exec(cmd, sender, w.net, out) == PollExecute(cmd0, sender0, old(w.net), me, key, grant)
    ensures rounds <= 2
  {
    cmd, sender, rounds := cmd0, sender0, 0;
    while true
      invariant rounds == 0 ==> cmd == cmd0 && sender == sender0 && w.net == old(w.net)
      invariant rounds > 0 ==> rounds == 1 && cmd.State1?
      invariant rounds > 0 ==>
                  PollExecute(cmd0, sender0, old(w.net), me, key, grant) == PollAnswer(cmd.recv, sender, w.net)
      decreases Rank(cmd)
    {
      rounds := rounds + 1;
      match cmd {
        case State0(msg) =>
          var v := Reserve(sender, w.net.cmd, me, w.net.gone, grant);
          sender := v.sender;
          w.net := w.net.(cmd := v.chan);
          match v.out {
            case Waits =>
              return cmd, sender, Pending, rounds;
            case Refused =>
              return cmd, sender, Failure(SendError), rounds;
            case Granted =>
              if msg == None {
                return cmd, sender, Failure(NoRequest), rounds;
              }
              var x := Enqueue(msg.value, sender, w.net, me, key);
              sender, w.net := x.sender, x.net;
              cmd := State0(None);
              if x.out != Pending {
                return cmd, sender, x.out, rounds;
              }
              cmd := x.cmd;
          }
        case State1(id) =>
          var x := PollAnswer(id, sender, w.net);
          cmd, w.net := x.cmd, x.net;
          return cmd, sender, x.out, rounds;
        case Terminated =>
          return cmd, sender, Panic, rounds;
      }
    }
  }

  /** One poll of a command in the state the world then has. */
  datatype Poll = Poll(sender: PollSender, net: Net, grant: bool)

  /** What a sequence of polls did: the requests it sent, the answers it returned. */
  datatype Tally = Tally(sent: seq<Request>, answers: seq<Response>, last: Command)

  function Outbox(before: Net, after: Net): seq<Request> {
    if |after.tickets| > |before.tickets| then [after.tickets[|before.tickets|].req] else []
  }

  /**
   Any sequence of polls of one command, up to a panic. Nothing is assumed about
   the world between two polls.
   */
  function Drive(cmd: Command, me: nat, key: nat, polls: seq<Poll>): Tally
    decreases |polls|
  {
    if polls == [] then Tally([], [], cmd) else
      var x := PollExecute(cmd, polls[0].sender, polls[0].net, me, key, polls[0].grant);
      if x.out == Panic then Tally(Outbox(polls[0].net, x.net), [], x.cmd) else
      var t := Drive(x.cmd, me, key, polls[1..]);
      Tally(Outbox(polls[0].net, x.net) + t.sent, (if x.out.Success? then [x.out.r] else []) + t.answers, t.last)
  }

  /**
   One poll: the command only moves forward; it sends its own request, and no other,
   exactly when it gets a slot. It
   returns an answer exactly when there is one in its channel, and uses it up.
   */
  lemma PollForward(cmd: Command, p: Poll, me: nat, key: nat)
    ensures var x := PollExecute(cmd, p.sender, p.net, me, key, p.grant);
            && Rank(x.cmd) <= Rank(cmd)
            && (Outbox(p.net, x.net) != [] ==>
                  cmd.State0? && cmd.msg.Some? && Outbox(p.net, x.net) == [cmd.msg.value] && Rank(x.cmd) < Rank(cmd))
            && (cmd.State0? && x.cmd.State0? && x.cmd.msg != cmd.msg ==> x.cmd.msg == None)
            && (x.out.Success? <==> cmd.State1? && p.net.ShotOf(cmd.recv).Filled?)
            && (x.out.Success? ==>
                  && x.cmd.Terminated?
                  && p.net.ShotOf(cmd.recv) == Filled(x.out.r)
                  && x.net == p.net.SetShot(cmd.recv, Spent(Some(x.out.r)))
                  && x.net.ShotOf(cmd.recv) == Spent(Some(x.out.r)))
            && (cmd.State0? && Rank(x.cmd) < Rank(cmd) ==> x.cmd.State1? && Outbox(p.net, x.net) != [])
            && (cmd.State0? && cmd.msg.Some? ==>
                  (Outbox(p.net, x.net) != [] <==> Grants(p.sender, p.net.cmd, p.net.gone, p.grant)))
  {
  }

  /**
   Exactly once: over any sequence of polls a command sends its request at most
   once, it returns an answer at most once, it returns one only after it sent,
   and it ends in `Terminated` exactly when it returned one.
   */
  lemma {:induction false} CommandExactlyOnce(cmd: Command, me: nat, key: nat, polls: seq<Poll>)
    ensures var t := Drive(cmd, me, key, polls);
            && Rank(t.last) <= Rank(cmd)
            && (t.sent == [] || (cmd.State0? && cmd.msg.Some? && t.sent == [cmd.msg.value]))
            && |t.answers| <= 1
            && (cmd.State0? ==> |t.answers| <= |t.sent|)
            && (cmd.State0? && !t.last.State0? <==> cmd.State0? && t.sent != [])
            && (t.answers != [] <==> t.last.Terminated? && !cmd.Terminated?)
    decreases |polls|
  {
    if polls != [] {
      var x := PollExecute(cmd, polls[0].sender, polls[0].net, me, key, polls[0].grant);
      PollForward(cmd, polls[0], me, key);
      if x.out != Panic {
        CommandExactlyOnce(x.cmd, me, key, polls[1..]);
      }
    }
  }
}
