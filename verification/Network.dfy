/**
  What a resumable read makes of the network (internal/source/source.go:104-197, 316-333 and 350-492): how each
  request, each read and each look-up of a fresh URL turns out is an arbitrary sequence of outcomes, one for each
  tick. Ranges follow sections 14.2 and 14.4 of RFC 9110: a partial answer starts at the offset asked for.
 */
module Network {
  import opened Wrappers

  datatype OpenReply =
    | Refused                                    // no connection, or a status that is not a success
    | Full(hasLength: bool)                      // 200: everything from byte 0, with or without Content-Length
    | Partial(hasTotal: bool, hasLength: bool)   // 206: from the offset on

  datatype ReadReply =
    | Bytes(n: nat)                              // up to n bytes, at least one
    | End                                        // the connection ends; early, if bytes are missing
    | Broken                                     // the connection fails

  datatype Error = EOF | UnexpectedEOF | Failed | Cancelled | BadSeek

  /** What the network will do, tick by tick. */
  datatype Outcomes = Outcomes(
    opening: nat -> OpenReply, reading: nat -> ReadReply, resolving: nat -> Option<string>, cancelled: nat -> bool)

  const READ_CHUNK := 32 * 1024

  function Min(a: nat, b: nat): nat {
    if a < b then a else b
  }

  function Minus(a: nat, b: nat): nat {
    if a < b then 0 else a - b
  }

  // ---------------------------------------------------------------- one connection

  datatype Arrival = Data(k: nat) | Ends | Fails(error: Error)

  /**
    What a read of at most limit bytes finds on a connection with so many bytes left. An end before the announced
    length is a failure of its own kind.
   */
  function Arrives(reply: ReadReply, limit: nat, left: nat, sized: bool): (a: Arrival)
    requires limit > 0
    ensures a.Data? ==> 0 < a.k <= limit && a.k <= left
    ensures a.Fails? ==> a.error == UnexpectedEOF || a.error == Failed
  {
    match reply
    case Bytes(n) => if left == 0 then Ends else Data(Min(Min(if n == 0 then 1 else n, limit), left))
    case End => if sized && left > 0 then Fails(UnexpectedEOF) else Ends
    case Broken => Fails(Failed)
  }

  datatype Stop = Through | CleanEnd | Broke(error: Error)

  /** How many bytes came, what stopped them, and the tick after. */
  datatype Part = Part(n: nat, stop: Stop, t: nat)

  function Before(n: nat, rest: Part): Part {
    Part(n + rest.n, rest.stop, rest.t)
  }

  /** io.ReadFull: reads until count bytes have come. */
  function Filled(net: Outcomes, t: nat, count: nat, left: nat, sized: bool): (p: Part)
    ensures p.n <= count && p.n <= left && p.t >= t && (p.stop == Through <==> p.n == count)
    ensures p.stop.Broke? ==> p.stop.error == UnexpectedEOF || p.stop.error == Failed
    decreases count
  {
    if count == 0 then Part(0, Through, t)
    else
      match Arrives(net.reading(t), count, left, sized)
      case Data(k) => Before(k, Filled(net, t + 1, count - k, left - k, sized))
      case Ends => Part(0, CleanEnd, t + 1)
      case Fails(e) => Part(0, Broke(e), t + 1)
  }

  /** Throwing away count bytes, a chunk at a time, looking at the context before each chunk. */
  function Skipped(net: Outcomes, t: nat, count: nat, left: nat, sized: bool): (p: Part)
    ensures p.n <= count && p.n <= left && p.t >= t && (p.stop == Through <==> p.n == count)
    ensures p.stop.Broke? ==> p.stop.error != EOF
    decreases count
  {
    if count == 0 then Part(0, Through, t)
    else if net.cancelled(t) then Part(0, Broke(Cancelled), t + 1)
    else
      var chunk := Min(READ_CHUNK, count);
      var p := Filled(net, t + 1, chunk, left, sized);
      if p.stop != Through then p else Before(chunk, Skipped(net, p.t, count - chunk, left - chunk, sized))
  }

  lemma BeforeBoth(a: nat, b: nat, rest: Part)
    ensures Before(a, Before(b, rest)) == Before(a + b, rest) && Before(0, rest) == rest
  {
  }

  lemma FilledStep(net: Outcomes, t: nat, count: nat, left: nat, sized: bool)
    ensures Filled(net, t, 0, left, sized) == Part(0, Through, t)
    ensures count > 0 ==>
      match Arrives(net.reading(t), count, left, sized) {
        case Data(k) =>
          Filled(net, t, count, left, sized) == Before(k, Filled(net, t + 1, count - k, left - k, sized))
        case Ends => Filled(net, t, count, left, sized) == Part(0, CleanEnd, t + 1)
        case Fails(e) => Filled(net, t, count, left, sized) == Part(0, Broke(e), t + 1)
      }
  {
    hide Arrives, Before;
  }

  lemma SkippedStep(net: Outcomes, t: nat, count: nat, left: nat, sized: bool)
    ensures Skipped(net, t, 0, left, sized) == Part(0, Through, t)
    ensures count > 0 ==>
      var chunk := Min(READ_CHUNK, count); var p := Filled(net, t + 1, chunk, left, sized);
      Skipped(net, t, count, left, sized) ==
        if net.cancelled(t) then Part(0, Broke(Cancelled), t + 1)
        else if p.stop != Through then p
        else Before(chunk, Skipped(net, p.t, count - chunk, left - chunk, sized))
  {
    hide Filled, Before;
  }

  /** What io.ReadFull reports: a clean end after some bytes is unexpected. */
  function FillError(p: Part): (e: Option<Error>)
    ensures e == None <==> p.stop == Through
  {
    match p.stop
    case Through => None
    case CleanEnd => if p.n == 0 then Some(EOF) else Some(UnexpectedEOF)
    case Broke(e) => Some(e)
  }

  /** What discarding reports: a clean end on a chunk boundary is reported as the end of the stream. */
  function SkipError(p: Part): (e: Option<Error>)
    ensures e == None <==> p.stop == Through
  {
    match p.stop
    case Through => None
    case CleanEnd => if p.n % READ_CHUNK == 0 then Some(EOF) else Some(UnexpectedEOF)
    case Broke(e) => Some(e)
  }

  /** A chunk that did not come whole, after whole chunks. */
  lemma SkipStops(at: nat, p: Part)
    requires at % READ_CHUNK == 0 && p.n < READ_CHUNK && p.stop != Through
    ensures SkipError(Before(at, p)) == FillError(p)
  {
  }

  lemma StopsAt(at: nat, p: Part)
    ensures Before(at, p) == Part(at + p.n, p.stop, p.t)
  {
  }

  lemma Stops(at: nat, t: nat)
    ensures Before(at, Part(0, Broke(Cancelled), t)) == Part(at, Broke(Cancelled), t)
    ensures SkipError(Part(at, Broke(Cancelled), t)) == Some(Cancelled)
  {
  }

  lemma WholeChunk(at: nat)
    requires at % READ_CHUNK == 0
    ensures (at + READ_CHUNK) % READ_CHUNK == 0
  {
  }

  // ---------------------------------------------------------------- opening

  /** An open connection: where in the content it stands, and whether its length was announced. */
  datatype Body = Body(at: nat, sized: bool)

  /** The next tick, the size (-1 while unknown) and the open connection, if there is one. */
  datatype Conn = Conn(t: nat, size: int, body: Option<Body>)

  /** What an honest server can answer: a range only where one was asked for and exists. */
  function Answer(reply: OpenReply, offset: nat, length: nat): OpenReply {
    if reply.Partial? && offset == 0 then Full(reply.hasLength)
    else if reply.Partial? && offset > length then Refused
    else reply
  }

  function SizeAfter(reply: OpenReply, size: int, length: nat): int {
    if (reply.Full? && reply.hasLength) || (reply.Partial? && (reply.hasTotal || reply.hasLength)) then length else size
  }

  /** Opening a connection at the offset: a full answer is thrown away up to it. */
  function Opened(net: Outcomes, c: Conn, offset: nat, length: nat): (r: (Conn, Option<Error>))
    requires c.body == None
    ensures r.0.body.Some? <==> r.1 == None
    ensures r.0.body.Some? ==> r.0.body.value.at == offset <= length
    ensures r.0.size == c.size || r.0.size == length
    ensures var reply := net.opening(c.t);
      && (reply.Full? && reply.hasLength ==> r.0.size == length)
      && (reply.Partial? && 0 < offset <= length && (reply.hasTotal || reply.hasLength) ==> r.0.size == length)
    ensures r.0.t > c.t
  {
    var reply := Answer(net.opening(c.t), offset, length);
    var t, size := c.t + 1, SizeAfter(reply, c.size, length);
    match reply
    case Refused => (Conn(t, size, None), Some(Failed))
    case Partial(_, hasLength) => (Conn(t, size, Some(Body(offset, hasLength))), None)
    case Full(hasLength) =>
      var p := Skipped(net, t, offset, length, hasLength);
      (Conn(p.t, size, if p.stop == Through then Some(Body(offset, hasLength)) else None), SkipError(p))
  }

  // ---------------------------------------------------------------- reading

  /** One turn of the reading loop. */
  datatype Turn = Turn(c: Conn, n: nat, err: Option<Error>, again: bool)

  /** A failed attempt, unless the context has been cancelled meanwhile. */
  function FailedTurn(net: Outcomes, c: Conn, err: Option<Error>): Turn {
    var cancelled := net.cancelled(c.t);
    Turn(c.(t := c.t + 1, body := None), 0, if cancelled then Some(Cancelled) else err, !cancelled)
  }

  function Attempted(net: Outcomes, c: Conn, offset: nat, length: nat, limit: nat): (r: Turn)
    requires limit > 0
    ensures r.n <= limit && (r.n > 0 <==> r.err == None) && (r.again ==> r.n == 0 && r.c.body == None)
    ensures r.c.t > c.t && (r.c.size == c.size || r.c.size == length)
    ensures !r.again ==> r.err == None || r.err == Some(EOF) || r.err == Some(Cancelled)
  {
    var c1 := c.(t := c.t + 1);
    if net.cancelled(c.t) then Turn(c1, 0, Some(Cancelled), false)
    else
      var (o, openErr) := if c1.body.Some? then (c1, None) else Opened(net, c1, offset, length);
      if openErr.Some? then FailedTurn(net, o, openErr)
      else
        var after := o.(t := o.t + 1);
        match Arrives(net.reading(o.t), limit, Minus(length, offset), o.body.value.sized)
        case Data(k) => Turn(after.(body := Some(o.body.value.(at := offset + k))), k, None, false)
        case Ends =>
          if o.size >= 0 && offset < o.size then Turn(after.(body := None), 0, Some(UnexpectedEOF), true)
          else Turn(after, 0, Some(EOF), false)
        case Fails(e) => FailedTurn(net, after, Some(e))
  }

  /** A read: its results, how many attempts failed, and where the last turn began. */
  datatype Reading = Reading(c: Conn, n: nat, err: Option<Error>, failures: nat, last: Conn)

  /** The reading loop with so many retries left. */
  function ReadFrom(net: Outcomes, c: Conn, offset: nat, length: nat, limit: nat, left: nat,
      canResolve: bool): (r: Reading)
    requires limit > 0
    ensures r.failures <= left + 1
    decreases left
  {
    var turn := Attempted(net, c, offset, length, limit);
    if !turn.again then Reading(turn.c, turn.n, turn.err, 0, c)
    else if left == 0 then Reading(turn.c, 0, turn.err, 1, c)
    else
      var next := turn.c.(t := turn.c.t + if canResolve then 1 else 0);
      After(1, ReadFrom(net, next, offset, length, limit, left - 1, canResolve))
  }

  function After(failures: nat, r: Reading): Reading {
    r.(failures := failures + r.failures)
  }

  /** The first turn of a read, and the rest. */
  lemma OneTurn(net: Outcomes, c: Conn, offset: nat, length: nat, limit: nat, left: nat, canResolve: bool)
    requires limit > 0
    ensures var turn := Attempted(net, c, offset, length, limit);
      var next := turn.c.(t := turn.c.t + if canResolve then 1 else 0);
      ReadFrom(net, c, offset, length, limit, left, canResolve) ==
        if !turn.again then Reading(turn.c, turn.n, turn.err, 0, c)
        else if left == 0 then Reading(turn.c, 0, turn.err, 1, c)
        else After(1, ReadFrom(net, next, offset, length, limit, left - 1, canResolve))
  {
    hide Attempted;
  }

  /** The context is found cancelled at one of the ticks from t up to before u. */
  ghost predicate CancelledWithin(net: Outcomes, t: nat, u: nat) {
    exists k :: t <= k < u && net.cancelled(k)
  }

  lemma SkippedCancelled(net: Outcomes, t: nat, count: nat, left: nat, sized: bool)
    ensures var p := Skipped(net, t, count, left, sized);
      p.stop == Broke(Cancelled) ==> CancelledWithin(net, t, p.t)
    decreases count
  {
    hide Filled;
    if count > 0 && !net.cancelled(t) {
      var chunk := Min(READ_CHUNK, count);
      var p := Filled(net, t + 1, chunk, left, sized);
      if p.stop == Through {
        SkippedCancelled(net, p.t, count - chunk, left - chunk, sized);
      }
    } else if count > 0 {
      assert net.cancelled(t);
    }
  }

  /** A turn that reports a cancellation has met one. */
  lemma TurnCancelled(net: Outcomes, c: Conn, offset: nat, length: nat, limit: nat)
    requires limit > 0
    ensures var turn := Attempted(net, c, offset, length, limit);
      turn.err == Some(Cancelled) ==> CancelledWithin(net, c.t, turn.c.t)
  {
    hide Skipped;
    var turn := Attempted(net, c, offset, length, limit);
    if !net.cancelled(c.t) && c.body == None {
      var reply := net.opening(c.t + 1);
      var p := Skipped(net, c.t + 2, offset, length, if reply.Refused? then false else reply.hasLength);
      SkippedCancelled(net, c.t + 2, offset, length, if reply.Refused? then false else reply.hasLength);
    }
    if turn.err == Some(Cancelled) && !net.cancelled(c.t) && turn.c.t > 0 && net.cancelled(turn.c.t - 1) {
      assert CancelledWithin(net, c.t, turn.c.t);
    }
  }

  /** A read that reports neither bytes nor an end has given up, or has met a cancellation. */
  lemma {:induction false} Outcome(
    net: Outcomes, c: Conn, offset: nat, length: nat, limit: nat, left: nat, canResolve: bool)
    requires limit > 0
    ensures var r := ReadFrom(net, c, offset, length, limit, left, canResolve);
      && r.failures <= left + 1 && (r.n > 0 <==> r.err == None)
      && (r.err == None || r.err == Some(EOF) || r.err == Some(Cancelled) || r.failures == left + 1)
      && (r.err == Some(Cancelled) ==> CancelledWithin(net, c.t, r.c.t)) && r.c.t > c.t
    decreases left
  {
    hide Attempted;
    TurnCancelled(net, c, offset, length, limit);
    var turn := Attempted(net, c, offset, length, limit);
    if turn.again && left > 0 {
      var next := turn.c.(t := turn.c.t + if canResolve then 1 else 0);
      Outcome(net, next, offset, length, limit, left - 1, canResolve);
    }
  }

  // ---------------------------------------------------------------- reading on

  /** The state in which attempt j of a read begins, those before having failed. */
  function Start(net: Outcomes, c: Conn, offset: nat, length: nat, limit: nat, canResolve: bool, j: nat): Conn
    requires limit > 0
    decreases j
  {
    if j == 0 then c
    else
      var after := Attempted(net, c, offset, length, limit).c;
      Start(net, after.(t := after.t + if canResolve then 1 else 0), offset, length, limit, canResolve, j - 1)
  }

  /** An attempt that has or gets a connection, and on it data. */
  predicate GetsData(net: Outcomes, c: Conn, offset: nat, length: nat) {
    if c.body.Some? then net.reading(c.t + 1).Bytes?
    else
      var (o, err) := Opened(net, c.(t := c.t + 1), offset, length);
      err == None && net.reading(o.t).Bytes?
  }

  ghost predicate Uncancelled(net: Outcomes, t: nat) {
    forall k :: t <= k ==> !net.cancelled(k)
  }

  lemma UncancelledOn(net: Outcomes, t: nat, k: nat)
    requires t <= k
    ensures Uncancelled(net, t) ==> !net.cancelled(k) && Uncancelled(net, k)
  {
  }

  lemma TurnReadsOn(net: Outcomes, c: Conn, offset: nat, length: nat, limit: nat)
    requires limit > 0 && Uncancelled(net, c.t) && c.size == length && offset < length
    ensures var turn := Attempted(net, c, offset, length, limit);
      && (turn.n > 0 <==> GetsData(net, c, offset, length))
      && (turn.n == 0 ==> turn.again) && turn.c.size == length
  {
    hide Skipped, Uncancelled;
    UncancelledOn(net, c.t, c.t);
    var turn := Attempted(net, c, offset, length, limit);
    UncancelledOn(net, c.t, turn.c.t - 1);
    var (o, err) := if c.body.Some? then (c, None) else Opened(net, c.(t := c.t + 1), offset, length);
    UncancelledOn(net, c.t, o.t);
  }

  /** One of the first left + 1 attempts gets a connection and data, those before it having failed. */
  ghost predicate SomeGetsData(
    net: Outcomes, c: Conn, offset: nat, length: nat, limit: nat, left: nat, canResolve: bool)
    requires limit > 0
  {
    exists j: nat :: j <= left && GetsData(net, Start(net, c, offset, length, limit, canResolve, j), offset, length)
  }

  lemma FirstOrLater(net: Outcomes, c: Conn, offset: nat, length: nat, limit: nat, left: nat, canResolve: bool)
    requires limit > 0
    ensures var after := Attempted(net, c, offset, length, limit).c;
      var next := after.(t := after.t + if canResolve then 1 else 0);
      SomeGetsData(net, c, offset, length, limit, left, canResolve) <==>
        GetsData(net, c, offset, length) ||
        (left > 0 && SomeGetsData(net, next, offset, length, limit, left - 1, canResolve))
  {
    hide Attempted, GetsData;
    var after := Attempted(net, c, offset, length, limit).c;
    var next := after.(t := after.t + if canResolve then 1 else 0);
    assert Start(net, c, offset, length, limit, canResolve, 0) == c;
    if left > 0 && SomeGetsData(net, next, offset, length, limit, left - 1, canResolve) {
      var j: nat :| j <= left - 1 &&
        GetsData(net, Start(net, next, offset, length, limit, canResolve, j), offset, length);
      assert Start(net, c, offset, length, limit, canResolve, j + 1) ==
             Start(net, next, offset, length, limit, canResolve, j);
    }
    if SomeGetsData(net, c, offset, length, limit, left, canResolve) && !GetsData(net, c, offset, length) {
      var j: nat :| j <= left && GetsData(net, Start(net, c, offset, length, limit, canResolve, j), offset, length);
      assert j > 0 && Start(net, c, offset, length, limit, canResolve, j) ==
                      Start(net, next, offset, length, limit, canResolve, j - 1);
    }
  }

  /**
    With the size known and bytes left, a read that is not cancelled delivers bytes if and only if one of its
    first left + 1 attempts gets a connection and data, however those before it failed; if none does, it has made
    all of them.
   */
  lemma {:induction false} ReadsOn(
    net: Outcomes, c: Conn, offset: nat, length: nat, limit: nat, left: nat, canResolve: bool)
    requires limit > 0 && Uncancelled(net, c.t) && c.size == length && offset < length
    ensures var r := ReadFrom(net, c, offset, length, limit, left, canResolve);
      && (r.n > 0 <==> SomeGetsData(net, c, offset, length, limit, left, canResolve))
      && (r.n == 0 ==> r.failures == left + 1)
    decreases left
  {
    hide Attempted, GetsData, Uncancelled, SomeGetsData;
    TurnReadsOn(net, c, offset, length, limit);
    FirstOrLater(net, c, offset, length, limit, left, canResolve);
    var turn := Attempted(net, c, offset, length, limit);
    if turn.n == 0 && left > 0 {
      var next := turn.c.(t := turn.c.t + if canResolve then 1 else 0);
      UncancelledOn(net, c.t, next.t);
      ReadsOn(net, next, offset, length, limit, left - 1, canResolve);
    }
  }

  // ---------------------------------------------------------------- when an end is reported

  /**
    A turn that starts without a connection, gets everything from byte 0, and sees that replay come to a clean end
    on a chunk boundary below the offset.
   */
  predicate ReplayEnds(net: Outcomes, c: Conn, offset: nat, length: nat) {
    && c.body == None && offset > 0 && !net.cancelled(c.t) && net.opening(c.t + 1).Full?
    && var p := Skipped(net, c.t + 2, offset, length, net.opening(c.t + 1).hasLength);
       p.stop == CleanEnd && p.n % 32768 == 0 && !net.cancelled(p.t)
  }

  lemma AttemptEnds(net: Outcomes, c: Conn, offset: nat, length: nat, limit: nat)
    requires limit > 0
    ensures var turn := Attempted(net, c, offset, length, limit);
      && (turn.again && turn.err == Some(EOF) <==> ReplayEnds(net, c, offset, length))
      && (!turn.again && turn.err == Some(EOF) ==> turn.c.size < 0 || offset >= turn.c.size)
  {
    hide Skipped;
  }

  /**
    With bytes known to be left, a read reports the end of the stream if and only if every attempt failed and the
    last one saw its replay end cleanly on a chunk boundary.
   */
  lemma {:induction false} EarlyEndIff(
    net: Outcomes, c: Conn, offset: nat, length: nat, limit: nat, left: nat, canResolve: bool)
    requires limit > 0
    ensures var r := ReadFrom(net, c, offset, length, limit, left, canResolve);
      r.c.size >= 0 && offset < r.c.size ==>
        (r.err == Some(EOF) <==> r.failures == left + 1 && ReplayEnds(net, r.last, offset, length))
    decreases left
  {
    hide Attempted, ReplayEnds;
    AttemptEnds(net, c, offset, length, limit);
    var turn := Attempted(net, c, offset, length, limit);
    if turn.again && left > 0 {
      var next := turn.c.(t := turn.c.t + if canResolve then 1 else 0);
      EarlyEndIff(net, next, offset, length, limit, left - 1, canResolve);
    }
  }

  /** Every range that is asked for is answered with that range. */
  ghost predicate HonoursRange(net: Outcomes) {
    forall t :: !net.opening(t).Full?
  }

  /** Then an end is honest. */
  lemma HonestEnd(net: Outcomes, c: Conn, offset: nat, length: nat, limit: nat, left: nat, canResolve: bool)
    requires limit > 0 && HonoursRange(net)
    ensures var r := ReadFrom(net, c, offset, length, limit, left, canResolve);
      r.err == Some(EOF) ==> r.c.size < 0 || offset >= r.c.size
  {
    EarlyEndIff(net, c, offset, length, limit, left, canResolve);
  }

  /** Nothing fails. */
  ghost predicate Reliable(net: Outcomes) {
    forall t :: !net.opening(t).Refused? && net.reading(t).Bytes? && !net.cancelled(t)
  }

  lemma {:induction false} ReliableFills(net: Outcomes, t: nat, count: nat, left: nat, sized: bool)
    requires Reliable(net) && count <= left
    ensures Filled(net, t, count, left, sized).stop == Through
    decreases count
  {
    if count > 0 {
      var a := Arrives(net.reading(t), count, left, sized);
      ReliableFills(net, t + 1, count - a.k, left - a.k, sized);
    }
  }

  lemma {:induction false} ReliableSkips(net: Outcomes, t: nat, count: nat, left: nat, sized: bool)
    requires Reliable(net) && count <= left
    ensures Skipped(net, t, count, left, sized).stop == Through
    decreases count
  {
    hide Filled, Skipped;
    SkippedStep(net, t, count, left, sized);
    if count > 0 {
      var chunk := Min(READ_CHUNK, count);
      ReliableFills(net, t + 1, chunk, left, sized);
      var p := Filled(net, t + 1, chunk, left, sized);
      ReliableSkips(net, p.t, count - chunk, left - chunk, sized);
    }
  }

  /** Where nothing fails a read inside the content delivers bytes at once. */
  lemma ReliableReads(net: Outcomes, c: Conn, offset: nat, length: nat, limit: nat, left: nat, canResolve: bool)
    requires limit > 0 && Reliable(net) && offset < length
    ensures ReadFrom(net, c, offset, length, limit, left, canResolve).n > 0
  {
    hide Skipped;
    forall t: nat, sized: bool ensures Skipped(net, t, offset, length, sized).stop == Through {
      ReliableSkips(net, t, offset, length, sized);
    }
  }

  /** From then on every request is answered from byte 0, without a length, by a connection that ends at once. */
  ghost predicate CutOff(net: Outcomes, from: nat) {
    forall t :: from <= t ==> net.opening(t) == Full(false) && net.reading(t) == End && !net.cancelled(t)
  }

  lemma CutOffTurn(net: Outcomes, c: Conn, offset: nat, length: nat, limit: nat)
    requires limit > 0 && CutOff(net, c.t) && c.body == None && offset > 0
    ensures var turn := Attempted(net, c, offset, length, limit);
      turn.again && turn.err == Some(EOF) && turn.c.size == c.size
  {
    var p := Skipped(net, c.t + 2, offset, length, false);
    assert p == Part(0, CleanEnd, c.t + 4);
  }

  /** Then the end is reported. */
  lemma {:induction false} CutOffEnds(
    net: Outcomes, c: Conn, offset: nat, length: nat, limit: nat, left: nat, canResolve: bool)
    requires limit > 0 && CutOff(net, c.t) && c.body == None && offset > 0
    ensures var r := ReadFrom(net, c, offset, length, limit, left, canResolve);
      r.err == Some(EOF) && r.n == 0 && r.c.size == c.size
    decreases left
  {
    hide Attempted;
    CutOffTurn(net, c, offset, length, limit);
    var turn := Attempted(net, c, offset, length, limit);
    if left > 0 {
      var next := turn.c.(t := turn.c.t + if canResolve then 1 else 0);
      CutOffEnds(net, next, offset, length, limit, left - 1, canResolve);
    }
  }
}
