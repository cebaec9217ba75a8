/**
 `QuicRecvStream`: the chunks of a channel, read as a flat byte string into
 buffers of any size.
 */
module RecvStream {
  import opened Basics

  /** What the reader can see: the leftover of the last chunk, the chunks in the
      channel, and whether the senders go away after the last arrival. */
  datatype Reader = Reader(local: Option<Bytes>, queue: seq<Bytes>, closed: bool)

  /** `Ready(Ok)`, `Pending` and `Ready(Err)`. */
  datatype ReadOut = Full | Wait | Broken

  /** Chunks that other threads put into the channel during a call: one batch
      before each receive. */
  type Arrivals = seq<seq<Bytes>>

  /** The unread bytes, in order. */
  function Stream(r: Reader): Bytes {
    match r.local
    case None => Flat(r.queue)
    case Some(b) => b + Flat(r.queue)
  }

  function Late(a: Arrivals): Bytes {
    Flat(Flat(a))
  }

  /** All the bytes still to come out of the reader. */
  function Ahead(r: Reader, late: Arrivals): Bytes {
    Stream(r) + Late(late)
  }

  /** `rest` is what is left of `late` after some batches have arrived. */
  predicate Suffix<T(==)>(rest: seq<T>, late: seq<T>) {
    |rest| <= |late| && rest == late[|late| - |rest|..]
  }

  predicate Tidy(r: Reader) {
    r.local.Some? ==> r.local.value != []
  }

  /** The caller's buffer: what it holds so far, and how much it can hold. */
  class ReadBuf {
    const capacity: nat
    var filled: Bytes

    ghost predicate Valid()
      reads this
    {
      |filled| <= capacity
    }

    constructor (capacity: nat)
      ensures this.capacity == capacity && filled == [] && Valid()
    {
      this.capacity, filled := capacity, [];
    }

    function Remaining(): nat
      requires Valid()
      reads this
    {
      capacity - |filled|
    }

    method PutSlice(b: Bytes)
      requires Valid() && |b| <= Remaining()
      modifies this
      ensures Valid() && filled == old(filled) + b
    {
      filled := filled + b;
    }
  }

  /**
   What one call promises, in terms of the flat byte string only: the bytes put
   into the buffer are the next ones, none is lost, the call succeeds exactly
   when it filled the buffer, and it stops short only with nothing left to read.
   */
  ghost predicate ReadSpec(r: Reader, late: Arrivals, room: nat,
                           r': Reader, rest: Arrivals, got: Bytes, out: ReadOut)
  {
    && Ahead(r, late) == got + Ahead(r', rest)
    && Tidy(r')
    && r'.closed == r.closed
    && Suffix(rest, late)
    && |got| <= room
    && (out == Full <==> |got| == room)
    && (room == 0 ==> r' == r && rest == late)
    && (out != Full ==> r'.local == None && r'.queue == [])
    && (out == Broken <==> |got| < room && r.closed && rest == [])
  }

  lemma LateCons(a: Arrivals)
    requires a != []
    ensures Late(a) == Flat(a[0]) + Late(a[1..])
    ensures |Flat(a)| == |a[0]| + |Flat(a[1..])|
  {
    FlatAppend(a[0], Flat(a[1..]));
  }

  /** `got` has been delivered out of `all`, and `ahead` is to come. */
  ghost predicate Owed(all: Bytes, got: Bytes, ahead: Bytes) {
    all == got + ahead
  }

  lemma OwedMore(all: Bytes, got: Bytes, moved: Bytes, before: Bytes, after: Bytes)
    requires Owed(all, got, before) && before == moved + after
    ensures Owed(all, got + moved, after)
  {
    assert got + (moved + after) == (got + moved) + after;
  }

  lemma OwedAll(all: Bytes, got: Bytes, ahead: Bytes)
    requires Owed(all, got, ahead)
    ensures all == got + ahead
  {
  }

  lemma AheadMore(r: Reader, moved: Bytes, r': Reader, late: Arrivals)
    requires Stream(r) == moved + Stream(r')
    ensures Ahead(r, late) == moved + Ahead(r', late)
  {
    assert (moved + Stream(r')) + Late(late) == moved + (Stream(r') + Late(late));
  }

  lemma NoneMoved(r: Reader)
    ensures Stream(r) == [] + Stream(r)
  {
  }

  /** The front of the leftover goes, and a rest stays unless it is empty. */
  lemma Split(r: Reader, len: nat, r': Reader)
    requires r.local.Some? && len <= |r.local.value|
    requires r' == r.(local := if r.local.value[len..] != [] then Some(r.local.value[len..]) else None)
    ensures Stream(r) == r.local.value[..len] + Stream(r')
  {
    var b, q := r.local.value, Flat(r.queue);
    assert b == b[..len] + b[len..];
    assert b + q == b[..len] + (b[len..] + q);
  }

  class RecvStream {
    var queue: seq<Bytes>
    var closed: bool
    var local: Option<Bytes>

    ghost predicate Valid()
      reads this
    {
      Tidy(View())
    }

    function View(): Reader
      reads this
    {
      Reader(local, queue, closed)
    }

    constructor ()
      ensures Valid() && View() == Reader(None, [], false)
    {
      queue, closed, local := [], false, None;
    }

    /** Other threads put the next batch into the channel. */
    method Arrive(late: Arrivals) returns (rest: Arrivals)
      modifies this`queue
      ensures Suffix(rest, late)
      ensures Flat(queue) + Late(rest) == Flat(old(queue)) + Late(late)
      ensures |queue| + |Flat(rest)| == old(|queue|) + |Flat(late)|
    {
      rest := late;
      if late != [] {
        LateCons(late);
        FlatAppend(queue, late[0]);
        queue, rest := queue + late[0], late[1..];
      }
    }

    /** One receive from the channel, after the next batch has arrived. */
    method PollRecv(late: Arrivals) returns (chunk: Option<Bytes>, ended: bool, rest: Arrivals)
      requires local == None
      modifies this`queue
      ensures Suffix(rest, late)
      ensures Ahead(old(View()), late) == Ahead(View().(local := chunk), rest)
      ensures chunk.None? ==> queue == []
      ensures chunk.Some? ==> |queue| + |Flat(rest)| < old(|queue|) + |Flat(late)|
      ensures ended <==> chunk.None? && closed && rest == []
    {
      rest := Arrive(late);
      if queue != [] {
        chunk, ended := Some(queue[0]), false;
        queue := queue[1..];
      } else {
        chunk, ended := None, closed && rest == [];
      }
    }

    /** The inner loop: empties the leftover into the buffer, or fills the buffer. */
    method DrainLocal(buf: ReadBuf) returns (full: bool, ghost moved: Bytes)
      requires buf.Valid() && 0 < buf.Remaining()
      modifies this`local, buf
      ensures buf.Valid() && buf.filled == old(buf.filled) + moved
      ensures Stream(old(View())) == moved + Stream(View())
      ensures Tidy(View()) && (full <==> buf.Remaining() == 0) && (!full ==> local == None)
    {
      moved := [];
      hide Stream;
      NoneMoved(View());
      while local.Some?
        invariant buf.Valid() && 0 < buf.Remaining() && buf.filled == old(buf.filled) + moved
        invariant moved == [] || local == None
        invariant Stream(old(View())) == moved + Stream(View())
        decreases |Opt(local)|
      {
        var bytes := local.value;
        ghost var before := View();
        var len := if buf.Remaining() <= |bytes| then buf.Remaining() else |bytes|;
        local := None;
        buf.PutSlice(bytes[..len]);
        if bytes[len..] != [] {
          local := Some(bytes[len..]);
        }
        moved := bytes[..len];
        Split(before, len, View());
        if buf.Remaining() == 0 {
          return true, moved;
        }
      }
      full := false;
    }

    method PollRead(buf: ReadBuf, late: Arrivals) returns (out: ReadOut, rest: Arrivals, ghost got: Bytes)
      requires Valid() && buf.Valid()
      modifies this`local, this`queue, buf
      ensures Valid() && buf.Valid() && buf.filled == old(buf.filled) + got
      ensures ReadSpec(old(View()), late, old(buf.Remaining()), View(), rest, got, out)
    {
      rest, got := late, [];
      if buf.Remaining() == 0 {
        return Full, rest, got;
      }
      ghost var filled0, all := buf.filled, Ahead(View(), late);
      assert Owed(all, got, Ahead(View(), rest));
      hide Flat, Stream, Ahead, Owed;
      label outer:
      while true
        invariant buf.Valid() && 0 < buf.Remaining() && buf.filled == filled0 + got
        invariant Suffix(rest, late) && Owed(all, got, Ahead(View(), rest))
        decreases |queue| + |Flat(rest)|
      {
        ghost var before := View();
        var full;
        ghost var moved;
        full, moved := DrainLocal(buf);
        AheadMore(before, moved, View(), rest);
        OwedMore(all, got, moved, Ahead(before, rest), Ahead(View(), rest));
        got := got + moved;
        if full {
          break outer;
        }
        var chunk, ended;
        chunk, ended, rest := PollRecv(rest);
        match chunk {
          case Some(bytes) =>
            local := Some(bytes);  // an empty chunk too: the next round takes it away
          case None =>
            OwedAll(all, got, Ahead(View(), rest));
            return if ended then Broken else Wait, rest, got;
        }
      }
      OwedAll(all, got, Ahead(View(), rest));
      out := Full;
    }
  }

  /** One call in a session: the state before and after it and what it did. */
  datatype Call = Call(before: Reader, late: Arrivals, room: nat,
                       after: Reader, rest: Arrivals, got: Bytes, out: ReadOut)

  /**
   Any sequence of calls with any amounts of room. The chunks that had not
   arrived when a call returned arrive first in the next one, and any number of
   new ones may follow them.
   */
  ghost predicate Session(r: Reader, due: Arrivals, calls: seq<Call>)
    decreases |calls|
  {
    calls == [] ||
    var c := calls[0];
    && c.before == r && due <= c.late
    && ReadSpec(c.before, c.late, c.room, c.after, c.rest, c.got, c.out)
    && Session(c.after, c.rest, calls[1..])
  }

  /** Everything the session delivered, every partly filled buffer included. */
  function Delivered(calls: seq<Call>): Bytes {
    if calls == [] then [] else calls[0].got + Delivered(calls[1..])
  }

  /** What is still unread when the session ends. */
  ghost function Unread(r: Reader, due: Arrivals, calls: seq<Call>): Bytes
    decreases |calls|
  {
    if calls == [] then Stream(r) + Late(due) else Unread(calls[0].after, calls[0].rest, calls[1..])
  }

  /** What the session added to the bytes known when it began. */
  ghost function Added(due: Arrivals, calls: seq<Call>): Bytes
    decreases |calls|
  {
    if calls == [] then [] else
      Late(if |due| <= |calls[0].late| then calls[0].late[|due|..] else []) + Added(calls[0].rest, calls[1..])
  }

  lemma LateAppend(a: Arrivals, b: Arrivals)
    ensures Late(a + b) == Late(a) + Late(b)
  {
    FlatAppend(a, b);
    FlatAppend(Flat(a), Flat(b));
  }

  lemma LateSplit(due: Arrivals, late: Arrivals)
    requires due <= late
    ensures Late(late) == Late(due) + Late(late[|due|..])
  {
    LateAppend(due, late[|due|..]);
    assert late == due + late[|due|..];
  }

  /** Bytes delivered, then bytes still unread, are the bytes produced. */
  lemma {:induction false} Conservation(r: Reader, due: Arrivals, calls: seq<Call>)
    requires Session(r, due, calls)
    ensures Delivered(calls) + Unread(r, due, calls) == (Stream(r) + Late(due)) + Added(due, calls)
    decreases |calls|
  {
    if calls != [] {
      var c := calls[0];
      LateSplit(due, c.late);
      Conservation(c.after, c.rest, calls[1..]);
      Carry(Stream(r), Late(due), Late(c.late[|due|..]), c.got, Ahead(c.after, c.rest),
            Added(c.rest, calls[1..]), Delivered(calls[1..]), Unread(r, due, calls));
    }
  }

  lemma Carry(s: Bytes, due: Bytes, fresh_: Bytes, got: Bytes, tail: Bytes, more: Bytes, rest: Bytes, unread: Bytes)
    requires s + (due + fresh_) == got + tail
    requires rest + unread == tail + more
    ensures (got + rest) + unread == (s + due) + (fresh_ + more)
  {
    assert (got + rest) + unread == got + (rest + unread);
    assert got + (tail + more) == (got + tail) + more;
    assert (s + (due + fresh_)) + more == (s + due) + (fresh_ + more);
  }

  function Demand(calls: seq<Call>): nat {
    if calls == [] then 0 else calls[0].room + Demand(calls[1..])
  }

  /** The next slices of a flat byte string, one for each call. */
  predicate Slices(s: Bytes, calls: seq<Call>)
    requires Demand(calls) <= |s|
  {
    calls == [] ||
    (calls[0].got == s[..calls[0].room] && calls[0].out == Full && Slices(s[calls[0].room..], calls[1..]))
  }

  lemma Cancel(a: Bytes, b: Bytes, c: Bytes, d: Bytes, end: Bytes)
    requires a + (b + end) == c + (d + end)
    ensures a + b == c + d
  {
    assert a + b == (a + (b + end))[..|a| + |b|];
    assert c + d == (c + (d + end))[..|c| + |d|];
  }

  /**
   A call that finds at least `room` bytes available takes exactly the next
   `room` bytes, wherever the chunk boundaries are and whatever arrives meanwhile.
   */
  lemma EnoughIsFull(c: Call)
    requires ReadSpec(c.before, c.late, c.room, c.after, c.rest, c.got, c.out)
    requires c.room <= |Stream(c.before)|
    ensures c.out == Full && c.got == Stream(c.before)[..c.room]
    ensures Stream(c.before)[c.room..] <= Stream(c.after)
  {
    OutcomeExactly(c);
    var s, more := Stream(c.before), Late(c.late[..|c.late| - |c.rest|]);
    assert (s + more)[..c.room] == s[..c.room];
    assert (s + more)[c.room..] == s[c.room..] + more;
  }

  /** The bytes that a call had before it, and those that arrived while it ran. */
  function Available(c: Call): Bytes
    requires |c.rest| <= |c.late|
  {
    Stream(c.before) + Late(c.late[..|c.late| - |c.rest|])
  }

  /**
   The outcome of a call, exactly, in terms of what was available. It fills the
   buffer if and only if there was enough, and then it takes no more than that.
   Otherwise it takes all there was and returns Pending, or an error if the senders
   are gone; so it returns one of these with bytes already put into the buffer
   if and only if there were some, but too few.
   */
  lemma OutcomeExactly(c: Call)
    requires ReadSpec(c.before, c.late, c.room, c.after, c.rest, c.got, c.out)
    ensures var avail := Available(c);
            && (c.out == Full <==> c.room <= |avail|)
            && (c.out == Full ==> c.got == avail[..c.room] && Stream(c.after) == avail[c.room..])
            && (c.out != Full ==> c.got == avail && Stream(c.after) == [])
            && (c.out != Full && c.got != [] <==> 0 < |avail| < c.room)
            && (c.out == Broken <==> |avail| < c.room && c.before.closed && c.rest == [])
  {
    var used := c.late[..|c.late| - |c.rest|];
    LateSplit(used, c.late);
    Cancel(Stream(c.before), Late(used), c.got, Stream(c.after), Late(c.rest));
    assert |Available(c)| == |c.got| + |Stream(c.after)|;
  }

  /**
   A call that stops short with a byte in the buffer: one byte is there and two are
   asked for. Whatever it does, the byte is in the buffer and gone from the reader
   when it returns Pending or an error; and there is such a call.
   */
  lemma PartialRead(closed: bool)
    ensures var r := Reader(None, [[1]], closed);
            && (forall r', rest, got, out | ReadSpec(r, [], 2, r', rest, got, out) ::
                  got == [1] && out == (if closed then Broken else Wait) && r' == Reader(None, [], closed))
            && ReadSpec(r, [], 2, Reader(None, [], closed), [], [1], if closed then Broken else Wait)
  {
    var r := Reader(None, [[1]], closed);
    assert Stream(r) == [1] && Late([]) == [];
    forall r', rest, got, out | ReadSpec(r, [], 2, r', rest, got, out)
      ensures got == [1] && out == (if closed then Broken else Wait) && r' == Reader(None, [], closed)
    {
      OutcomeExactly(Call(r, [], 2, r', rest, got, out));
      assert Available(Call(r, [], 2, r', rest, got, out)) == [1];
    }
  }

  /**
   With enough bytes at hand, a session of reads of any sizes is a session of
   reads from the flat byte string.
   */
  lemma {:induction false} ReadsFlatString(s: Bytes, r: Reader, due: Arrivals, calls: seq<Call>)
    requires Session(r, due, calls) && s <= Stream(r) && Demand(calls) <= |s|
    ensures Slices(s, calls)
    decreases |calls|
  {
    if calls != [] {
      var c := calls[0];
      EnoughIsFull(c);
      ReadsFlatString(s[c.room..], c.after, c.rest, calls[1..]);
    }
  }

  /**
   Two ways to cut the same bytes into chunks, with any arrivals behind them,
   fill the buffers of every sequence of reads alike.
   */
  lemma {:induction false} ChunkingIndependence(s: Bytes, r1: Reader, due1: Arrivals, calls1: seq<Call>,
                                                r2: Reader, due2: Arrivals, calls2: seq<Call>)
    requires Session(r1, due1, calls1) && s <= Stream(r1)
    requires Session(r2, due2, calls2) && s <= Stream(r2)
    requires |calls1| == |calls2| && forall i :: 0 <= i < |calls1| ==> calls1[i].room == calls2[i].room
    requires Demand(calls1) <= |s|
    ensures forall i :: 0 <= i < |calls1| ==> calls1[i].got == calls2[i].got && calls1[i].out == calls2[i].out == Full
  {
    SameDemand(calls1, calls2);
    ReadsFlatString(s, r1, due1, calls1);
    ReadsFlatString(s, r2, due2, calls2);
    SlicesAgree(s, calls1, calls2);
  }

  lemma {:induction false} SameDemand(calls1: seq<Call>, calls2: seq<Call>)
    requires |calls1| == |calls2| && forall i :: 0 <= i < |calls1| ==> calls1[i].room == calls2[i].room
    ensures Demand(calls1) == Demand(calls2)
  {
    if calls1 != [] {
      assert calls1[0].room == calls2[0].room;
      SameDemand(calls1[1..], calls2[1..]);
    }
  }

  lemma {:induction false} SlicesAgree(s: Bytes, calls1: seq<Call>, calls2: seq<Call>)
    requires |calls1| == |calls2| && forall i :: 0 <= i < |calls1| ==> calls1[i].room == calls2[i].room
    requires Demand(calls1) <= |s| && Demand(calls2) <= |s|
    requires Slices(s, calls1) && Slices(s, calls2)
    ensures forall i :: 0 <= i < |calls1| ==> calls1[i].got == calls2[i].got && calls1[i].out == calls2[i].out == Full
    decreases |calls1|
  {
    if calls1 != [] {
      assert calls1[0].room == calls2[0].room;
      SlicesAgree(s[calls1[0].room..], calls1[1..], calls2[1..]);
      forall i | 0 < i < |calls1|
        ensures calls1[i].got == calls2[i].got && calls1[i].out == calls2[i].out == Full
      {
        assert calls1[i] == calls1[1..][i - 1] && calls2[i] == calls2[1..][i - 1];
      }
    }
  }
}
