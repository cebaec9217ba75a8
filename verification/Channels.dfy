/**
 The library objects the actor is built on, as values: bounded channels with
 reserved slots, senders that reserve a slot before they send, and one-shot
 answers.
 */
module Channels {
  import opened Basics

  /** A bounded channel: queued items, and the senders that hold a free slot. */
  datatype Chan<T> = Chan(queue: seq<T>, holders: set<nat>, cap: nat) {
    predicate Within() {
      |queue| + |holders| <= cap
    }

    /** The slots that are neither used nor held. */
    function Free(): int {
      cap - |queue| - |holders|
    }
  }

  datatype Permit = Idle | Reserved | Closed

  /** A `PollSender`: `open` while it still has its own sender. */
  datatype PollSender = PollSender(open: bool, permit: Permit) {
    predicate IsClosed() {
      permit.Closed? || !open
    }

    /** Closing keeps a slot that is already held. */
    function Close(): PollSender {
      PollSender(false, if permit.Idle? then Closed else permit)
    }
  }

  datatype ReserveOut = Waits | Granted | Refused

  datatype Reservation<T> = Reservation(sender: PollSender, chan: Chan<T>, out: ReserveOut)

  /**
   `poll_reserve` by client `me`. `gone` tells that the receiver has been
   dropped; `grant` is the runtime's choice to hand over a free slot now.
   */
  function Reserve<T>(s: PollSender, ch: Chan<T>, me: nat, gone: bool, grant: bool): Reservation<T> {
    match s.permit
    case Closed => Reservation(s, ch, Refused)
    case Reserved => Reservation(s, ch, Granted)
    case Idle =>
      if gone then Reservation(s.(permit := Closed), ch, Refused)
      else if grant && ch.Free() > 0 then
        Reservation(s.(permit := Reserved), ch.(holders := ch.holders + {me}), Granted)
      else Reservation(s, ch, Waits)
  }

  /** A reservation fails. */
  predicate Refuses(p: PollSender, gone: bool) {
    p.permit.Closed? || (p.permit.Idle? && gone)
  }

  /** A reservation succeeds. */
  predicate Grants<T>(p: PollSender, ch: Chan<T>, gone: bool, grant: bool) {
    p.permit.Reserved? || (p.permit.Idle? && !gone && grant && |ch.queue| + |ch.holders| < ch.cap)
  }

  datatype SendOut = Sent | Rejected | Misuse

  datatype Sending<T> = Sending(sender: PollSender, chan: Chan<T>, out: SendOut)

  /** `send_item`: it panics unless a slot was reserved or the sender is closed. */
  function SendItem<T>(s: PollSender, ch: Chan<T>, me: nat, item: T): Sending<T> {
    match s.permit
    case Reserved =>
      Sending(s.(permit := if s.open then Idle else Closed),
              ch.(queue := ch.queue + [item], holders := ch.holders - {me}), Sent)
    case Closed => Sending(s, ch, Rejected)
    case Idle => Sending(s, ch, Misuse)
  }

  datatype Request = Write(buf: Bytes) | Flush | Ready

  datatype Response = Written(n: nat) | FlushDone | ReadyDone

  /** The answer that belongs to a request. */
  predicate Answers(r: Response, q: Request) {
    match q
    case Write(buf) => r == Written(|buf|)
    case Flush => r == FlushDone
    case Ready => r == ReadyDone
  }

  /**
   A one-shot channel: nothing yet, an answer, its sender dropped, or used up.
   `was` is history: the answer that was taken out, if it was one.
   */
  datatype Shot = Empty | Filled(r: Response) | Dropped | Spent(was: Option<Response>) {
    /** The answer that was given, taken out already or not. */
    function Answer(): Option<Response> {
      match this
      case Empty => None
      case Filled(r) => Some(r)
      case Dropped => None
      case Spent(was) => was
    }

    /** The channel after its content was taken out. */
    function Used(): Shot {
      Spent(Answer())
    }
  }

  /**
   A request that has been sent, and its one-shot channel. The other fields are
   history: who sent it, and how many datagrams had been accepted by then.
   */
  datatype Ticket = Ticket(req: Request, shot: Shot, owner: nat, key: nat, mark: nat)

  /**
   What the clients and the server share. A ticket's index is its identity, and
   `cmd` carries identities. `gone` tells that the server has ended; `accepted`
   is the history of all datagrams taken by `send_item`.
   */
  datatype Net = Net(cmd: Chan<nat>, wr: Chan<Bytes>, tickets: seq<Ticket>, gone: bool, accepted: seq<Bytes>) {
    function ShotOf(id: nat): Shot {
      if id < |tickets| then tickets[id].shot else Empty
    }

    function SetShot(id: nat, shot: Shot): Net {
      if id < |tickets| then this.(tickets := tickets[id := tickets[id].(shot := shot)]) else this
    }

    /** The server answers all of `ids` with `r`. */
    function FillAll(ids: seq<nat>, r: Response): Net {
      this.(tickets := seq(|tickets|, i requires 0 <= i < |tickets| =>
                           if i in ids then tickets[i].(shot := Filled(r)) else tickets[i]))
    }

    /** The server ends: the one-shot senders it holds, and those in the queue, are dropped. */
    function DropAll(): Net {
      this.(gone := true,
            cmd := cmd.(queue := []), wr := wr.(queue := []),
            tickets := seq(|tickets|, i requires 0 <= i < |tickets| =>
                           if tickets[i].shot.Empty? then tickets[i].(shot := Dropped) else tickets[i]))
    }
  }
}
