/** When the calls of a client can panic. */
module NoPanic {
  import opened Basics
  import opened Channels
  import opened Commands
  import opened Clients
  import opened Server
  import opened Actor
  import opened CallEffects
  import opened Invariant
  import opened Handshake

  /* One call, exactly. */

  /** What a poll for an operation of kind `kind` finds under its key. */
  predicate Fatal(cmd: Command, net: Net, kind: Kind) {
    match cmd
    case State0(_) => false
    case State1(id) =>
      net.ShotOf(id).Spent? ||
      (net.ShotOf(id).Filled? && id < |net.tickets| && KindOf(net.tickets[id].req) != kind)
    case Terminated => kind != Readying
  }

  /** The kind of operation a call belongs to, when it polls a command. */
  function CallKind(l: Label): Kind
    requires l.IsCall()
  {
    match l
    case CallWrite(_, _, _, _) => Writing
    case CallFlush(_, _, _) => Flushing
    case _ => Readying
  }

  lemma FatalAdvance(c: Client, net: Net, me: nat, key: nat, g: bool)
    requires Consistent(c, net, me) && key in c.pending
    requires forall id | 0 <= id < |net.tickets| :: Honest(net.tickets[id], |net.accepted|)
    ensures var out := Advance(c, net, me, key, g).2;
            && (out == Panic <==>
                  || c.pending[key].Terminated?
                  || (c.pending[key].State1? && net.ShotOf(c.pending[key].recv).Spent?))
            && (out.Success? ==>
                  && c.pending[key].State1? && net.ShotOf(c.pending[key].recv) == Filled(out.r)
                  && Answers(out.r, net.tickets[c.pending[key].recv].req))
            && (c.pending[key].State1? && net.ShotOf(c.pending[key].recv).Filled? ==> out.Success?)
  {
    ExecuteMoves(c, net, me, key, g);
    assert Sound(c.pending[key], net, me, key);
    if c.pending[key].State0? {
      State0Moves(c.pending[key].msg.value, c.cmd, net, me, key, g);
      hide PollExecute;
    }
  }

  /**
   A call for an operation panics exactly when the entry under its key is one of
   these: finished, used up by an earlier error, or holding the answer to another
   kind of operation.
   */
  lemma PanicsIff(s: Sys, l: Label)
    requires Reachable(s) && Enabled(s, l) && l.IsCall() && !l.CallStartSend?
    ensures Result(s, l) == Panicked <==>
              l.k in s.clients[l.c].pending && Fatal(s.clients[l.c].pending[l.k], s.net, CallKind(l))
  {
    ReachableInv(s);
    assert SoundClient(s.clients[l.c], s.net, l.c);
    HonestEnough(s);
    match l
    case CallWrite(c, k, buf, g) => WritePanicsIff(s.clients[c], s.net, c, k, buf, g);
    case CallFlush(c, k, g) => FlushPanicsIff(s.clients[c], s.net, c, k, g);
    case CallReady(c, k, g, h) => ReadyPanicsIff(s.clients[c], s.net, c, k, g, h);
    case CallWriteChunk(c, k, d, g, h) =>
      ReadyPanicsIff(s.clients[c], s.net, c, k, g, h);
      ReadyMoves(s.clients[c], s.net, c, k, g, h);
      hide PollReady, Inv;
    case CallClose(c, k, g, h) =>
      var c1 := if s.clients[c].cmd.IsClosed() then s.clients[c]
                else s.clients[c].(cmd := s.clients[c].cmd.Close());
      assert SoundClient(c1, s.net, c);
      ReadyPanicsIff(c1, s.net, c, k, g, h);
      hide PollReady, Inv;
  }

  lemma HonestEnough(s: Sys)
    requires Inv(s)
    ensures forall id | 0 <= id < |s.net.tickets| :: Honest(s.net.tickets[id], |s.net.accepted|)
  {
    assert Left(s.srv) <= |s.net.accepted|;
  }

  lemma WritePanicsIff(c: Client, net: Net, me: nat, key: nat, buf: Bytes, g: bool)
    requires Consistent(c, net, me)
    requires forall id | 0 <= id < |net.tickets| :: Honest(net.tickets[id], |net.accepted|)
    ensures PollWrite(c, net, me, key, buf, g).out == Panicked <==>
              key in c.pending && Fatal(c.pending[key], net, Writing)
  {
    var c1 := if key in c.pending then c else Insert(c, key, State0(Some(Write(buf))));
    assert SoundClient(c1, net, me);
    FatalAdvance(c1, net, me, key, g);
    hide Advance;
  }

  lemma FlushPanicsIff(c: Client, net: Net, me: nat, key: nat, g: bool)
    requires Consistent(c, net, me)
    requires forall id | 0 <= id < |net.tickets| :: Honest(net.tickets[id], |net.accepted|)
    ensures PollFlush(c, net, me, key, g).out == Panicked <==>
              key in c.pending && Fatal(c.pending[key], net, Flushing)
  {
    var c1 := if key in c.pending then c else Insert(c, key, State0(Some(Flush)));
    assert SoundClient(c1, net, me);
    FatalAdvance(c1, net, me, key, g);
    hide Advance;
  }

  lemma ReadyPanicsIff(c: Client, net: Net, me: nat, key: nat, g: bool, h: bool)
    requires Consistent(c, net, me)
    requires forall id | 0 <= id < |net.tickets| :: Honest(net.tickets[id], |net.accepted|)
    ensures PollReady(c, net, me, key, g, h).out == Panicked <==>
              key in c.pending && Fatal(c.pending[key], net, Readying)
  {
    var c1 := if key in c.pending then c
              else Insert(c, key, if net.wr.Free() > 0 then Terminated else State0(Some(Ready)));
    assert SoundClient(c1, net, me);
    FatalAdvance(c1, net, me, key, g);
    hide Advance;
  }

  /* Whole runs, for callers that keep two rules. */

  /**
   What a caller knows about a key: an operation of some kind is unfinished under
   it, or `poll_ready` has failed under it. A key that is in neither state is free.
   */
  datatype Known = Unfinished(kind: Kind) | ReadyFailed

  /** The callers' own books: keys in use, and clients that were told to go ahead. */
  datatype Books = Books(keys: map<(nat, nat), Known>, told: set<nat>)

  const NO_BOOKS: Books := Books(map[], {})

  /**
   The two rules. One key belongs to one unfinished operation, and a key is not
   used again after `poll_ready` failed under it. And `start_send` follows a
   `poll_ready` that returned Ok.
   */
  predicate Allowed(b: Books, l: Label) {
    l.IsCall() ==>
      if l.CallStartSend? then l.c in b.told
      else (l.c, l.k) in b.keys ==> b.keys[(l.c, l.k)] == Unfinished(CallKind(l))
  }

  /** The books after a step, from what the call returned. */
  ghost function Noted(b: Books, s: Sys, l: Label): Books
    requires Enabled(s, l)
  {
    if l.Leave? then
      Books(map p | p in b.keys && p.0 != l.c :: b.keys[p], b.told - {l.c})
    else if !l.IsCall() then b
    else
      var out := Result(s, l);
      var told := if out == Done && (l.CallReady? || l.CallClose?) then b.told + {l.c}
                  else if out == Done && (l.CallStartSend? || l.CallWriteChunk?) then b.told - {l.c}
                  else b.told;
      if l.CallStartSend? then b.(told := told) else
      var p := (l.c, l.k);
      var keys := match out
        case Waiting => b.keys[p := Unfinished(CallKind(l))]
        case Failed => if CallKind(l) == Readying then b.keys[p := ReadyFailed] else b.keys - {p}
        case _ => b.keys - {p};
      Books(keys, told)
  }

  /** A run whose calls all keep the rules. Nothing is assumed about their outcome. */
  ghost predicate Disciplined(s: Sys, b: Books, ls: seq<Label>)
    decreases |ls|
  {
    ls == [] ||
    (Enabled(s, ls[0]) && Allowed(b, ls[0]) && Disciplined(Step(s, ls[0]), Noted(b, s, ls[0]), ls[1..]))
  }

  /** The kind of operation a stored command belongs to. */
  predicate OfKind(cmd: Command, net: Net, kind: Kind) {
    match cmd
    case State0(msg) => msg.Some? && KindOf(msg.value) == kind
    case State1(id) => id < |net.tickets| && KindOf(net.tickets[id].req) == kind && !net.tickets[id].shot.Spent?
    case Terminated => kind == Readying
  }

  /** An entry of the map is known to the books, and an unfinished one is as it should be. */
  predicate EntryMatches(b: Books, net: Net, c: nat, k: nat, cmd: Command) {
    (c, k) in b.keys && (b.keys[(c, k)].Unfinished? ==> OfKind(cmd, net, b.keys[(c, k)].kind))
  }

  ghost predicate ClientMatches(b: Books, net: Net, c: nat, client: Client) {
    && (forall k | k in client.pending :: EntryMatches(b, net, c, k, client.pending[k]))
    && (c in b.told ==> client.wr.permit.Reserved?)
  }

  ghost predicate BooksMatch(b: Books, s: Sys) {
    && (forall c | c in s.clients :: ClientMatches(b, s.net, c, s.clients[c]))
    && (forall p | p in b.keys :: p.0 in s.clients)
    && b.told <= s.clients.Keys
  }

  /** A call that keeps the rules does not panic. */
  lemma AllowedIsSafe(s: Sys, b: Books, l: Label)
    requires Reachable(s) && BooksMatch(b, s) && Enabled(s, l) && Allowed(b, l) && l.IsCall()
    ensures Result(s, l) != Panicked
  {
    ReachableInv(s);
    assert ClientMatches(b, s.net, l.c, s.clients[l.c]);
    if l.CallStartSend? {
    } else {
      PanicsIff(s, l);
      if l.k in s.clients[l.c].pending {
        assert EntryMatches(b, s.net, l.c, l.k, s.clients[l.c].pending[l.k]);
        assert (l.c, l.k) in b.keys;
      }
      hide Inv, Result;
    }
  }

  /** The entries a call leaves: the old ones under other keys, and its own while unfinished. */
  ghost predicate EntriesAfter(c: Client, x: Call, key: nat, kind: Kind) {
    && (forall k | k in x.client.pending && k != key :: k in c.pending && x.client.pending[k] == c.pending[k])
    && (key in x.client.pending ==>
          || (x.out == Waiting && OfKind(x.client.pending[key], x.net, kind))
          || (x.out == Failed && kind == Readying))
  }

  lemma AdvanceKind(c: Client, net: Net, me: nat, key: nat, g: bool, kind: Kind)
    requires Consistent(c, net, me) && key in c.pending && OfKind(c.pending[key], net, kind)
    ensures var (c', net', out) := Advance(c, net, me, key, g);
            && (forall k | k in c'.pending && k != key :: k in c.pending && c'.pending[k] == c.pending[k])
            && (out == Pending ==> OfKind(c'.pending[key], net', kind))
            && (out.Success? ==> c'.pending[key].Terminated?)
            && c'.wr == c.wr
  {
    assert Sound(c.pending[key], net, me, key);
    PollKind(c.pending[key], c.cmd, net, me, key, g, kind);
    hide PollExecute, OfKind, SoundClient;
  }

  /** A command that is not settled stays of its kind. */
  lemma PollKind(cmd: Command, sender: PollSender, net: Net, me: nat, key: nat, g: bool, kind: Kind)
    requires net.cmd.Within() && (sender.permit.Reserved? <==> me in net.cmd.holders)
    requires OfKind(cmd, net, kind)
    ensures var x := PollExecute(cmd, sender, net, me, key, g);
            && (x.out == Pending ==> OfKind(x.cmd, x.net, kind))
            && (x.out.Success? ==> x.cmd.Terminated?)
  {
    if cmd.State0? {
      var v := Reserve(sender, net.cmd, me, net.gone, g);
      ReserveMoves(sender, net.cmd, me, net.gone, g);
      if v.out == Granted {
        SentKind(cmd.msg.value, v.sender, net.(cmd := v.chan), me, key);
      }
      hide Reserve, Enqueue, PollAnswer, Chan.Within, ChanMove;
    }
  }

  /** A request that was just sent waits for its own answer. */
  lemma SentKind(q: Request, sender: PollSender, net: Net, me: nat, key: nat)
    requires sender.permit.Reserved?
    ensures var x := Enqueue(q, sender, net, me, key);
            && x.out == Pending && x.cmd.State1?
            && OfKind(x.cmd, x.net, KindOf(q))
            && PollAnswer(x.cmd.recv, x.sender, x.net) == x
  {
  }

  lemma WriteEntries(c: Client, net: Net, me: nat, key: nat, buf: Bytes, g: bool)
    requires Consistent(c, net, me) && (key in c.pending ==> OfKind(c.pending[key], net, Writing))
    ensures var x := PollWrite(c, net, me, key, buf, g);
            x.out != Panicked ==> EntriesAfter(c, x, key, Writing) && x.client.wr == c.wr
  {
    var c1 := if key in c.pending then c else Insert(c, key, State0(Some(Write(buf))));
    assert SoundClient(c1, net, me);
    AdvanceKind(c1, net, me, key, g, Writing);
    hide Advance, OfKind;
  }

  lemma FlushEntries(c: Client, net: Net, me: nat, key: nat, g: bool)
    requires Consistent(c, net, me) && (key in c.pending ==> OfKind(c.pending[key], net, Flushing))
    ensures var x := PollFlush(c, net, me, key, g);
            x.out != Panicked ==> EntriesAfter(c, x, key, Flushing) && x.client.wr == c.wr
  {
    var c1 := if key in c.pending then c else Insert(c, key, State0(Some(Flush)));
    assert SoundClient(c1, net, me);
    AdvanceKind(c1, net, me, key, g, Flushing);
    hide Advance, OfKind;
  }

  lemma ReserveWriteEntries(c0: Client, c: Client, net: Net, me: nat, key: nat, h: bool)
    requires Consistent(c, net, me) && key in c.pending && c.pending[key].Terminated?
    requires forall k | k in c.pending && k != key :: k in c0.pending && c.pending[k] == c0.pending[k]
    ensures var x := ReserveWrite(c, net, me, key, h);
            && EntriesAfter(c0, x, key, Readying) && x.out != Panicked
            && (c.wr.permit.Reserved? ==> x.client.wr.permit.Reserved?)
            && (x.out == Done ==> x.client.wr.permit.Reserved?)
  {
  }

  /** The two ways a command of `poll_ready` leaves it: with its answer, or without. */
  lemma CommandEntries(c: Client, c1: Client, net: Net, me: nat, key: nat, g: bool)
    requires Consistent(c1, net, me) && key in c1.pending && OfKind(c1.pending[key], net, Readying)
    requires forall k | k in c1.pending && k != key :: k in c.pending && c1.pending[k] == c.pending[k]
    ensures var (c2, net2, out) := Advance(c1, net, me, key, g);
            && c2.wr == c1.wr
            && (out == Pending ==> EntriesAfter(c, Call(c2, net2, Waiting), key, Readying))
            && (out.Failure? ==> EntriesAfter(c, Call(c2, net2, Failed), key, Readying))
            && (out.Success? ==>
                  Consistent(c2, net2, me) && key in c2.pending && c2.pending[key].Terminated? &&
                  forall k | k in c2.pending && k != key :: k in c.pending && c2.pending[k] == c.pending[k])
  {
    AdvanceKind(c1, net, me, key, g, Readying);
    AdvanceMoves(c1, net, me, key, g);
    var (c2, net2, out) := Advance(c1, net, me, key, g);
    WithinMoves(net, net2, me, key);
    hide Advance, OfKind, SoundClient, Moves;
  }

  lemma ReadyEntries(c: Client, net: Net, me: nat, key: nat, g: bool, h: bool)
    requires Consistent(c, net, me) && (key in c.pending ==> OfKind(c.pending[key], net, Readying))
    ensures var x := PollReady(c, net, me, key, g, h);
            && (x.out != Panicked ==> EntriesAfter(c, x, key, Readying))
            && (c.wr.permit.Reserved? ==> x.client.wr.permit.Reserved?)
            && (x.out == Done ==> x.client.wr.permit.Reserved?)
  {
    var c1 := if key in c.pending then c
              else Insert(c, key, if net.wr.Free() > 0 then Terminated else State0(Some(Ready)));
    assert Consistent(c1, net, me) && OfKind(c1.pending[key], net, Readying);
    if c1.pending[key].Terminated? {
      ReserveWriteEntries(c, c1, net, me, key, h);
      NoEntries(c, net, key);
      hide ReserveWrite, EntriesAfter, Advance;
    } else {
      CommandEntries(c, c1, net, me, key, g);
      var (c2, net2, out) := Advance(c1, net, me, key, g);
      hide ReserveWrite, EntriesAfter, Advance, OfKind, Consistent;
      if out.Success? {
        ReserveWriteEntries(c, c2, net2, me, key, h);
      }
      NoEntries(c, net, key);
    }
  }

  lemma NoEntries(c: Client, net: Net, key: nat)
    ensures EntriesAfter(c, Call(c, net, Failed), key, Readying)
  {
  }

  /** What one call does to the entries and to the write slot of its client. */
  lemma CallEntries(c: Client, net: Net, l: Label)
    requires l.IsCall() && !l.CallStartSend? && Consistent(c, net, l.c)
    requires l.k in c.pending ==> OfKind(c.pending[l.k], net, CallKind(l))
    ensures var x := CallStep(c, net, l);
            x.out != Panicked ==>
              && EntriesAfter(c, x, l.k, CallKind(l))
              && (c.wr.permit.Reserved? && !(l.CallWriteChunk? && x.out == Done) ==> x.client.wr.permit.Reserved?)
              && (x.out == Done && (l.CallReady? || l.CallClose?) ==> x.client.wr.permit.Reserved?)
  {
    match l
    case CallWrite(c_, k, buf, g) => WriteEntries(c, net, c_, k, buf, g); hide PollWrite, EntriesAfter;
    case CallFlush(c_, k, g) => FlushEntries(c, net, c_, k, g); hide PollFlush, EntriesAfter;
    case CallReady(c_, k, g, h) => ReadyEntries(c, net, c_, k, g, h); hide PollReady, EntriesAfter;
    case CallWriteChunk(c_, k, d, g, h) => ReadyEntries(c, net, c_, k, g, h); hide PollReady;
    case CallClose(c_, k, g, h) =>
      var c1 := if c.cmd.IsClosed() then c else c.(cmd := c.cmd.Close());
      assert SoundClient(c1, net, c_);
      ReadyEntries(c1, net, c_, k, g, h);
      hide PollReady;
  }

  /** What a call writes into the books. */
  ghost predicate NotedFor(b: Books, b': Books, p: (nat, nat), kind: Kind, out: CallOut) {
    && (forall q | q in b.keys && q != p :: q in b'.keys && b'.keys[q] == b.keys[q])
    && (forall q | q in b'.keys && q != p :: q in b.keys)
    && (out == Waiting ==> p in b'.keys && b'.keys[p] == Unfinished(kind))
    && (out == Failed && kind == Readying ==> p in b'.keys && b'.keys[p] == ReadyFailed)
  }

  lemma NotedKeys(s: Sys, b: Books, l: Label)
    requires Enabled(s, l) && l.IsCall() && !l.CallStartSend?
    ensures var b', out := Noted(b, s, l), Result(s, l);
            && NotedFor(b, b', (l.c, l.k), CallKind(l), out)
            && b'.told - {l.c} == b.told - {l.c}
            && (l.c in b'.told ==>
                  || (out == Done && (l.CallReady? || l.CallClose?))
                  || (l.c in b.told && !(out == Done && l.CallWriteChunk?)))
  {
    hide CallStep;
  }

  /** A call under another key leaves an entry that waits for its answer as it is. */
  lemma OthersKeep(b: Books, b': Books, net: Net, net': Net, c: nat, k: nat, cmd: Command,
                   me: nat, key: nat, kind: Kind, out: CallOut)
    requires Sound(cmd, net, c, k) && EntryMatches(b, net, c, k, cmd) && (c, k) != (me, key)
    requires TicketsMove(net, net', me, key) && NotedFor(b, b', (me, key), kind, out)
    ensures EntryMatches(b', net', c, k, cmd)
  {
    if cmd.State1? {
      assert TicketMove(net.tickets[cmd.recv], net'.tickets[cmd.recv], me, key);
    }
  }

  lemma StartSendMatches(s: Sys, b: Books, l: Label)
    requires Inv(s) && BooksMatch(b, s) && Enabled(s, l) && l.CallStartSend? && l.c in b.told
    ensures Result(s, l) == Done && BooksMatch(Noted(b, s, l), Step(s, l))
  {
    var s', b' := Step(s, l), Noted(b, s, l);
    assert ClientMatches(b, s.net, l.c, s.clients[l.c]);
    forall c | c in s'.clients
      ensures ClientMatches(b', s'.net, c, s'.clients[c])
    {
      assert ClientMatches(b, s.net, c, s.clients[c]);
      forall k | k in s'.clients[c].pending
        ensures EntryMatches(b', s'.net, c, k, s'.clients[c].pending[k])
      {
        assert EntryMatches(b, s.net, c, k, s.clients[c].pending[k]);
      }
    }
  }

  /** The books of the calling client. */
  lemma OwnMatches(s: Sys, b: Books, l: Label)
    requires Inv(s) && BooksMatch(b, s) && Enabled(s, l) && Allowed(b, l) && l.IsCall() && !l.CallStartSend?
    requires Result(s, l) != Panicked
    ensures ClientMatches(Noted(b, s, l), Step(s, l).net, l.c, Step(s, l).clients[l.c])
  {
    var c, x, b' := s.clients[l.c], CallStep(s.clients[l.c], s.net, l), Noted(b, s, l);
    assert ClientMatches(b, s.net, l.c, c) && SoundClient(c, s.net, l.c);
    if l.k in c.pending {
      assert EntryMatches(b, s.net, l.c, l.k, c.pending[l.k]);
    }
    CallEntries(c, s.net, l);
    CallStepMoves(c, s.net, l);
    assert TicketsMove(s.net, x.net, l.c, l.k);
    NotedKeys(s, b, l);
    hide CallStep, OfKind, Inv, CallMoves, TicketsMove, Noted, NotedFor, EntriesAfter, EntryMatches, Sound;
    OwnEntries(b, b', c, s.net, x, l.c, l.k, CallKind(l));
  }

  /** What is left of the calling client's entries matches its books. */
  lemma OwnEntries(b: Books, b': Books, c: Client, net: Net, x: Call, me: nat, key: nat, kind: Kind)
    requires forall k | k in c.pending :: EntryMatches(b, net, me, k, c.pending[k]) && Sound(c.pending[k], net, me, k)
    requires EntriesAfter(c, x, key, kind)
    requires TicketsMove(net, x.net, me, key) && NotedFor(b, b', (me, key), kind, x.out)
    ensures forall k | k in x.client.pending :: EntryMatches(b', x.net, me, k, x.client.pending[k])
  {
    hide OfKind, EntryMatches, Sound, TicketsMove, NotedFor;
    forall k | k in x.client.pending
      ensures EntryMatches(b', x.net, me, k, x.client.pending[k])
    {
      if k == key {
        OwnEntry(b, b', x, me, key, kind);
      } else {
        OthersKeep(b, b', net, x.net, me, k, c.pending[k], me, key, kind, x.out);
      }
    }
  }

  lemma OwnEntry(b: Books, b': Books, x: Call, c: nat, k: nat, kind: Kind)
    requires k in x.client.pending && NotedFor(b, b', (c, k), kind, x.out)
    requires (x.out == Waiting && OfKind(x.client.pending[k], x.net, kind)) || (x.out == Failed && kind == Readying)
    ensures EntryMatches(b', x.net, c, k, x.client.pending[k])
  {
  }

  lemma CallMatches(s: Sys, b: Books, l: Label)
    requires Inv(s) && BooksMatch(b, s) && Enabled(s, l) && Allowed(b, l) && l.IsCall() && !l.CallStartSend?
    requires Result(s, l) != Panicked
    ensures BooksMatch(Noted(b, s, l), Step(s, l))
  {
    var s', b' := Step(s, l), Noted(b, s, l);
    OwnMatches(s, b, l);
    CallStepMoves(s.clients[l.c], s.net, l);
    NotedKeys(s, b, l);
    hide CallStep, Noted;
    forall c | c in s'.clients && c != l.c
      ensures ClientMatches(b', s'.net, c, s'.clients[c])
    {
      assert ClientMatches(b, s.net, c, s.clients[c]) && SoundClient(s.clients[c], s.net, c);
      assert c in b'.told - {l.c} <==> c in b.told - {l.c};
      forall k | k in s.clients[c].pending
        ensures EntryMatches(b', s'.net, c, k, s.clients[c].pending[k])
      {
        assert EntryMatches(b, s.net, c, k, s.clients[c].pending[k]);
        OthersKeep(b, b', s.net, s'.net, c, k, s.clients[c].pending[k], l.c, l.k, CallKind(l), Result(s, l));
      }
    }
    BooksKnown(s, b, b', l);
  }

  lemma BooksKnown(s: Sys, b: Books, b': Books, l: Label)
    requires BooksMatch(b, s) && l.IsCall() && !l.CallStartSend? && l.c in s.clients
    requires forall q | q in b'.keys && q != (l.c, l.k) :: q in b.keys
    requires b'.told - {l.c} == b.told - {l.c}
    ensures (forall q | q in b'.keys :: q.0 in s.clients) && b'.told <= s.clients.Keys
  {
    forall c | c in b'.told
      ensures c in s.clients
    {
      assert c != l.c ==> c in b'.told - {l.c};
      assert c != l.c ==> c in b.told - {l.c};
    }
  }

  lemma ServerMatches(s: Sys, b: Books, l: Label)
    requires Inv(s) && BooksMatch(b, s) && Enabled(s, l) && l.IsServer()
    ensures BooksMatch(b, Step(s, l))
  {
    var s' := Step(s, l);
    ServerStepKeeps(s, l);
    assert s'.clients == s.clients;
    hide Step;
    forall c | c in s.clients
      ensures ClientMatches(b, s'.net, c, s.clients[c])
    {
      assert ClientMatches(b, s.net, c, s.clients[c]);
      forall k | k in s.clients[c].pending
        ensures EntryMatches(b, s'.net, c, k, s.clients[c].pending[k])
      {
        var cmd := s.clients[c].pending[k];
        assert EntryMatches(b, s.net, c, k, cmd) && SoundClient(s.clients[c], s.net, c);
        assert Sound(cmd, s.net, c, k);
        if cmd.State1? {
          assert ShotSet(s.net.tickets[cmd.recv], s'.net.tickets[cmd.recv]);
        }
      }
    }
  }

  lemma JoinLeaveMatches(s: Sys, b: Books, l: Label)
    requires Inv(s) && BooksMatch(b, s) && Enabled(s, l) && (l.Join? || l.Leave?)
    ensures BooksMatch(Noted(b, s, l), Step(s, l))
  {
    var s', b' := Step(s, l), Noted(b, s, l);
    forall c | c in s'.clients
      ensures ClientMatches(b', s'.net, c, s'.clients[c])
    {
      if c in s.clients {
        assert ClientMatches(b, s.net, c, s.clients[c]);
        forall k | k in s.clients[c].pending
          ensures EntryMatches(b', s'.net, c, k, s.clients[c].pending[k])
        {
          assert EntryMatches(b, s.net, c, k, s.clients[c].pending[k]);
        }
      }
    }
  }

  lemma StepMatches(s: Sys, b: Books, l: Label)
    requires Reachable(s) && BooksMatch(b, s) && Enabled(s, l) && Allowed(b, l)
    ensures Fine(s, l) && BooksMatch(Noted(b, s, l), Step(s, l))
  {
    ReachableInv(s);
    if l.IsCall() {
      AllowedIsSafe(s, b, l);
      hide Inv, Step, BooksMatch, Noted, Result;
      if l.CallStartSend? {
        StartSendMatches(s, b, l);
      } else {
        CallMatches(s, b, l);
      }
    } else if l.IsServer() {
      ServerMatches(s, b, l);
      hide Inv, Step, BooksMatch;
    } else {
      JoinLeaveMatches(s, b, l);
      hide Inv, Step, BooksMatch, Noted;
    }
  }

  lemma {:induction false} DisciplinedFrom(s: Sys, b: Books, ls: seq<Label>)
    requires Reachable(s) && BooksMatch(b, s) && Disciplined(s, b, ls)
    ensures ValidRun(s, ls)
    decreases |ls|
  {
    if ls != [] {
      StepMatches(s, b, ls[0]);
      assert ValidRun(s, [ls[0]]) && Run(s, [ls[0]]) == Step(s, ls[0]) by {
        hide Step, Fine;
        assert [ls[0]][1..] == [] && ValidRun(Step(s, ls[0]), []);
      }
      ReachableRun(s, [ls[0]]);
      hide Step, Enabled, Result, BooksMatch, Noted, Reachable;
      DisciplinedFrom(Step(s, ls[0]), Noted(b, s, ls[0]), ls[1..]);
    }
  }

  /**
   No panic: from the initial state, with channels of any capacity, a run whose
   callers keep the two rules never panics, whatever else happens in it.
   */
  lemma DisciplinedRunsNeverPanic(cmdCap: nat, wrCap: nat, ls: seq<Label>)
    requires Disciplined(Init(cmdCap, wrCap), NO_BOOKS, ls)
    ensures ValidRun(Init(cmdCap, wrCap), ls)
  {
    var init := Init(cmdCap, wrCap);
    assert ValidRun(init, []) && init == Run(init, []);
    DisciplinedFrom(init, NO_BOOKS, ls);
  }

  /* Why the rules are needed. */

  /**
   A writer's ready request is answered, another writer takes the free slot, and
   the first one's next poll parks a finished entry while it waits for a slot,
   whatever the runtime chooses. A flush under the same key then panics.
   */
  lemma SharedKeyPanics(k: nat, d: Bytes, e: Bytes) returns (s: Sys)
    ensures Reachable(s) && 0 in s.clients
    ensures forall g, h :: Result(s, CallWriteChunk(0, k, e, g, h)) == Waiting
    ensures forall g, h, g2 :: Result(Step(s, CallWriteChunk(0, k, e, g, h)), CallFlush(0, k, g2)) == Panicked
  {
    var s4 := ReadyGiven(k, d, e);
    s := OtherWriter(s4, k, e);
    forall g, h
      ensures Result(s, CallWriteChunk(0, k, e, g, h)) == Waiting
      ensures forall g2 :: Result(Step(s, CallWriteChunk(0, k, e, g, h)), CallFlush(0, k, g2)) == Panicked
    {
      Parks(s, k, e, g, h);
      hide Result, Step;
    }
  }

  lemma Parks(s: Sys, k: nat, e: Bytes, g: bool, h: bool)
    requires 0 in s.clients && s.clients[0] == NEW_CLIENT.(pending := map[k := State1(0)])
    requires s.net.ShotOf(0) == Filled(ReadyDone) && s.net.wr.Free() == 0 && !s.net.gone
    ensures Result(s, CallWriteChunk(0, k, e, g, h)) == Waiting
    ensures forall g2 :: Result(Step(s, CallWriteChunk(0, k, e, g, h)), CallFlush(0, k, g2)) == Panicked
  {
    var x := PollReady(s.clients[0], s.net, 0, k, g, h);
    assert x.out == Waiting && k in x.client.pending && x.client.pending[k] == Terminated;
    hide PollReady;
  }

  /** The server receives the ready request, takes the datagram, and answers. */
  lemma ReadyGiven(k: nat, d: Bytes, e: Bytes) returns (s: Sys)
    ensures Reachable(s) && s.srv == INIT.(pc := AtDrain, write := [d])
    ensures s.net
         == Net(Chan([], {}, 1), Chan([], {}, 1), [Ticket(Ready, Filled(ReadyDone), 0, k, 1)], false, [d])
    ensures s.clients == map[0 := NEW_CLIENT.(pending := map[k := State1(0)])]
  {
    var s2 := WriterAsks(k, d, e);
    ReachableStep(s2, RecvRequest);
    var s3 := Step(s2, RecvRequest);
    assert s3.srv == INIT.(pc := AtDrain, ready := [0]);
    assert s3.net == s2.net.(cmd := Chan([], {}, 1));
    ReachableStep(s3, TryWrite);
    s := Step(s3, TryWrite);
    hide Reachable;
    assert [] + [d] == [d] && [d][1..] == [];
  }

  /** A second writer joins and writes. */
  lemma OtherWriter(s4: Sys, k: nat, e: Bytes) returns (s: Sys)
    requires Reachable(s4) && s4.clients.Keys == {0} && !s4.net.gone
    requires s4.net.wr == Chan([], {}, 1)
    ensures Reachable(s) && s.clients.Keys == {0, 1} && s.clients[0] == s4.clients[0]
    ensures s.net == s4.net.(wr := Chan([e], {}, 1), accepted := s4.net.accepted + [e])
  {
    ReachableStep(s4, Join(1, true));
    var s5 := Step(s4, Join(1, true));
    OneWrite(s5.net, k, e);
    hide PollWriteChunk;
    ReachableStep(s5, CallWriteChunk(1, k, e, true, true));
    s := Step(s5, CallWriteChunk(1, k, e, true, true));
    hide Reachable;
  }

  lemma OneWrite(net: Net, k: nat, e: Bytes)
    requires net.wr == Chan([], {}, 1) && !net.gone
    ensures var x := PollWriteChunk(NEW_CLIENT, net, 1, k, e, true, true);
            x.out == Done && x.net == net.(wr := Chan([e], {}, 1), accepted := net.accepted + [e])
  {
    var x := PollReady(NEW_CLIENT, net, 1, k, true, true);
    assert x == Call(x.client, net.(wr := Chan([], {1}, 1)), Done) && x.client.wr == PollSender(true, Reserved);
    hide PollReady;
    assert {1} - {1} == {};
  }

  /** A request whose answer was dropped makes `poll_ready` fail; a second poll under its key panics. */
  lemma ReuseAfterErrorPanics(k: nat, d: Bytes, e: Bytes) returns (s: Sys)
    ensures Reachable(s) && 0 in s.clients
    ensures Result(s, CallReady(0, k, true, true)) == Failed
    ensures Result(Step(s, CallReady(0, k, true, true)), CallReady(0, k, true, true)) == Panicked
  {
    var s5 := ServerDrainsFirst(k, d, e);
    ReachableStep(s5, RefillStream(false));
    s := Step(s5, RefillStream(false));
    assert s.net.tickets[0].shot == Dropped && s.clients[0].pending[k] == State1(0);
  }

  /** What `start_send` returns, exactly; when it fails, nothing changes. */
  lemma UnpreparedSendPanics(s: Sys, c: nat, dgram: Bytes)
    requires Reachable(s) && c in s.clients
    ensures Result(s, CallStartSend(c, dgram)) == Panicked <==> s.clients[c].wr.permit.Idle?
    ensures Result(s, CallStartSend(c, dgram)) == Done <==> c in s.net.wr.holders
    ensures Result(s, CallStartSend(c, dgram)) == Failed <==> s.clients[c].wr.permit.Closed?
    ensures Result(s, CallStartSend(c, dgram)) == Failed ==> Step(s, CallStartSend(c, dgram)) == s
    ensures var t := Step(s, CallStartSend(c, dgram));
            && t.clients == s.clients[c := s.clients[c].(wr := t.clients[c].wr)]
            && t.net == s.net.(wr := t.net.wr, accepted := t.net.accepted)
  {
    ReachableInv(s);
    assert SoundClient(s.clients[c], s.net, c);
  }
}
