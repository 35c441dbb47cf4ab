/**
  One seekable byte stream over connections that fail, close early or ignore the requested range
  (internal/source/source.go:104-492). The server holds fixed content; what the network does is a trace of
  outcomes (module Network), and every method is proved to do what the functions on that trace say.
 */
module Source {
  import opened Wrappers
  import opened Bits
  import opened Network

  datatype Whence = SeekStart | SeekCurrent | SeekEnd

  /** The bytes of s from a up to b, as far as there are any. */
  function Between(s: seq<byte>, a: nat, b: nat): seq<byte>
    requires a <= b
  {
    s[Min(a, |s|)..Min(b, |s|)]
  }

  class MediaSource {
    const content: seq<byte>
    const net: Outcomes
    const maxRetries: nat
    const canResolve: bool
    var tick: nat            // outcomes used up
    var url: string
    var offset: nat
    var size: int
    var body: Option<Body>
    var bytesRead: nat
    ghost var origin: nat    // where the last seek left the stream
    ghost var delivered: seq<byte>

    ghost predicate Valid()
      reads this
    {
      && (size == -1 || size == |content|)
      && (body.Some? ==> body.value.at == offset <= |content|)
      && origin <= offset
      && delivered == Between(content, origin, offset)
    }

    function State(): Conn
      reads this
    {
      Conn(tick, size, body)
    }

    constructor (content: seq<byte>, net: Outcomes, maxRetries: nat, canResolve: bool, url: string)
      ensures Valid() && offset == 0 && bytesRead == 0 && delivered == [] && State() == Conn(0, -1, None)
      ensures this.content == content && this.net == net && this.maxRetries == maxRetries
      ensures this.canResolve == canResolve
    {
      this.content, this.net, this.maxRetries, this.canResolve, this.url := content, net, maxRetries, canResolve, url;
      tick, offset, size, body, bytesRead := 0, 0, -1, None, 0;
      origin, delivered := 0, [];
    }

    /** One look at the context. */
    method IsCancelled() returns (yes: bool)
      modifies this`tick
      ensures yes == net.cancelled(old(tick)) && tick == old(tick) + 1
    {
      yes := net.cancelled(tick);
      tick := tick + 1;
    }

    /** A fresh URL, where one can be resolved. */
    method RefreshURL()
      modifies this`tick, this`url
      ensures tick == old(tick) + if canResolve then 1 else 0
      ensures url == if canResolve && net.resolving(old(tick)).Some? && net.resolving(old(tick)).value != ""
                     then net.resolving(old(tick)).value else old(url)
    {
      if !canResolve {
        return;
      }
      var resolved := net.resolving(tick);
      tick := tick + 1;
      if resolved.Some? && resolved.value != "" {
        url := resolved.value;
      }
    }

    /** Bytes of the content where the connection stands, a clean end, or a failure. */
    method Receive(at: nat, limit: nat, sized: bool) returns (data: seq<byte>, err: Option<Error>)
      requires at <= |content| && limit > 0
      modifies this`tick
      ensures tick == old(tick) + 1
      ensures at + |data| <= |content| && data == content[at..at + |data|]
      ensures match Arrives(net.reading(old(tick)), limit, |content| - at, sized)
        case Data(k) => |data| == k && err == None
        case Ends => data == [] && err == Some(EOF)
        case Fails(e) => data == [] && err == Some(e)
    {
      var reply := net.reading(tick);
      tick := tick + 1;
      match reply
      case Bytes(n) =>
        var k := Min(Min(if n == 0 then 1 else n, limit), |content| - at);
        if k == 0 {
          return [], Some(EOF);
        }
        return content[at..at + k], None;
      case End =>
        return [], if sized && at < |content| then Some(UnexpectedEOF) else Some(EOF);
      case Broken =>
        return [], Some(Failed);
    }

    /** io.ReadFull: all of count bytes, or an error. */
    method ReceiveFull(at: nat, count: nat, sized: bool) returns (n: nat, err: Option<Error>)
      requires at <= |content|
      modifies this`tick
      ensures var p := Filled(net, old(tick), count, |content| - at, sized);
        n == p.n && err == FillError(p) && tick == p.t
    {
      hide Filled, Arrives;
      n := 0;
      BeforeBoth(0, 0, Filled(net, tick, count, |content| - at, sized));
      while n < count
        invariant n <= count && at + n <= |content|
        invariant Filled(net, old(tick), count, |content| - at, sized) ==
          Before(n, Filled(net, tick, count - n, |content| - (at + n), sized))
      {
        ghost var now, left := tick, |content| - (at + n);
        FilledStep(net, now, count - n, left, sized);
        var data, e := Receive(at + n, count - n, sized);
        if e.Some? {
          if e.value == EOF && n > 0 {
            return n, Some(UnexpectedEOF);
          }
          return n, e;
        }
        BeforeBoth(n, |data|, Filled(net, tick, count - n - |data|, left - |data|, sized));
        n := n + |data|;
      }
      FilledStep(net, tick, 0, |content| - (at + n), sized);
      return n, None;
    }

    /** Throw away the replayed prefix. */
    method Discard(count: nat, sized: bool) returns (at: nat, err: Option<Error>)
      modifies this`tick
      ensures var p := Skipped(net, old(tick), count, |content|, sized);
        at == p.n && err == SkipError(p) && tick == p.t
    {
      hide Filled, Skipped, FillError, SkipError, Before;
      at := 0;
      var left := count;
      BeforeBoth(0, 0, Skipped(net, tick, count, |content|, sized));
      while left > 0
        invariant at + left == count && at <= |content|
        invariant left > 0 ==> at % READ_CHUNK == 0
        invariant Skipped(net, old(tick), count, |content|, sized) ==
          Before(at, Skipped(net, tick, left, |content| - at, sized))
      {
        SkippedStep(net, tick, left, |content| - at, sized);
        Stops(at, tick + 1);
        var stop := IsCancelled();
        if stop {
          return at, Some(Cancelled);
        }
        var chunk := READ_CHUNK;
        if chunk > left {
          chunk := left;
        }
        ghost var p := Filled(net, tick, chunk, |content| - at, sized);
        var n, e := ReceiveFull(at, chunk, sized);
        if e.Some? {
          SkipStops(at, p);
          StopsAt(at, p);
          return at + n, e;
        }
        BeforeBoth(at, n, Skipped(net, tick, left - n, |content| - at - n, sized));
        WholeChunk(at);
        at := at + n;
        left := left - n;
      }
      SkippedStep(net, tick, 0, |content| - at, sized);
      StopsAt(at, Part(0, Through, tick));
      return at, None;
    }

    method NoteSize(reply: OpenReply)
      requires Valid() && (reply.Partial? ==> offset <= |content|)
      modifies this`size
      ensures Valid()
      ensures size == SizeAfter(reply, old(size), |content|)
    {
      match reply
      case Partial(hasTotal, hasLength) =>
        if hasTotal {
          size := |content|;
        } else if hasLength {
          size := offset + (|content| - offset);
        }
      case Full(hasLength) =>
        if hasLength {
          size := |content|;
        }
      case Refused =>
    }

    /** After success the connection stands at the offset. */
    method Open() returns (err: Option<Error>)
      requires Valid() && body == None
      modifies this
      ensures Valid() && offset == old(offset) && bytesRead == old(bytesRead)
      ensures origin == old(origin) && delivered == old(delivered)
      ensures (State(), err) == Opened(net, old(State()), offset, |content|)
    {
      hide Between, Skipped;
      var reply := Answer(net.opening(tick), offset, |content|);
      tick := tick + 1;
      match reply
      case Refused =>
        return Some(Failed);
      case Partial(_, hasLength) =>
        NoteSize(reply);
        body := Some(Body(offset, hasLength));
        return None;
      case Full(hasLength) =>
        NoteSize(reply);
        var at := 0;
        SkipsNothing(net, tick, |content|, hasLength);
        if offset > 0 {
          var e;
          at, e := Discard(offset, hasLength);
          if e.Some? {
            return e;
          }
        }
        body := Some(Body(at, hasLength));
        return None;
    }

    method EnsureBody() returns (err: Option<Error>)
      requires Valid()
      modifies this
      ensures Valid() && offset == old(offset) && bytesRead == old(bytesRead)
      ensures origin == old(origin) && delivered == old(delivered)
      ensures (State(), err) ==
        if old(body).Some? then (old(State()), None) else Opened(net, old(State()), offset, |content|)
    {
      if body.Some? {
        return None;
      }
      err := Open();
    }

    /** Bytes that arrived go into the caller's buffer, and the stream moves on. */
    method Deliver(p: array<byte>, data: seq<byte>)
      requires Valid() && body.Some? && 0 < |data| <= p.Length
      requires offset + |data| <= |content| && data == content[offset..offset + |data|]
      modifies this, p
      ensures Valid() && size == old(size) && origin == old(origin) && tick == old(tick)
      ensures offset == old(offset) + |data| && bytesRead == old(bytesRead) + |data| && offset <= |content|
      ensures body == Some(old(body).value.(at := offset))
      ensures p[..|data|] == data && p[|data|..] == old(p[|data|..])
      ensures delivered == old(delivered) + data
    {
      forall i | 0 <= i < |data| {
        p[i] := data[i];
      }
      offset := offset + |data|;
      body := Some(body.value.(at := offset));
      bytesRead := bytesRead + |data|;
      delivered := delivered + data;
    }

    /** A failed attempt closes the connection; it is made again unless the context has been cancelled. */
    method Fail(cause: Option<Error>) returns (err: Option<Error>, again: bool)
      requires Valid()
      modifies this`tick, this`body
      ensures Valid()
      ensures Turn(State(), 0, err, again) == FailedTurn(net, old(State()), cause)
    {
      body := None;
      var stop := IsCancelled();
      return if stop then Some(Cancelled) else cause, !stop;
    }

    /**
      One turn of the reading loop: bytes, an end of the stream, a cancellation, or a failed attempt (again),
      after which the connection is closed.
     */
    method Attempt(p: array<byte>) returns (n: nat, err: Option<Error>, again: bool)
      requires Valid() && p.Length > 0
      modifies this, p
      ensures Valid() && origin == old(origin)
      ensures n <= p.Length && offset == old(offset) + n && bytesRead == old(bytesRead) + n
      ensures n > 0 ==> offset <= |content| && p[..n] == content[old(offset)..offset]
      ensures delivered == old(delivered) + p[..n] && p[n..] == old(p[n..])
      ensures Turn(State(), n, err, again) == Attempted(net, old(State()), old(offset), |content|, p.Length)
    {
      hide Between, Skipped, Opened, FailedTurn, Arrives;
      assert p[..0] == [] && old(p[0..]) == p[0..];
      var stop := IsCancelled();
      if stop {
        return 0, Some(Cancelled), false;
      }
      var openErr := EnsureBody();
      if openErr.Some? {
        n := 0;
        err, again := Fail(openErr);
        return;
      }
      var data, e := Receive(body.value.at, p.Length, body.value.sized);
      if |data| > 0 {
        Deliver(p, data);
        return |data|, None, false;
      }
      if e == Some(EOF) {
        if size >= 0 && offset < size {
          body := None;
          return 0, Some(UnexpectedEOF), true;
        }
        return 0, Some(EOF), false;
      }
      n := 0;
      err, again := Fail(e);
    }

    /** What the trace makes of a read with this much room, from where the stream stands. */
    function Reads(limit: nat): Reading
      requires limit > 0
      reads this
    {
      ReadFrom(net, State(), offset, |content|, limit, maxRetries, canResolve)
    }

    /**
      The next bytes of the content, copied into p, with the results the trace determines. With bytes known to be
      left an end is reported if and only if all maxRetries + 1 attempts failed, and in the last one the server's
      replay from byte 0 came to a clean end on a chunk boundary below the offset.
     */
    method Read(p: array<byte>) returns (n: nat, err: Option<Error>)
      requires Valid() && p.Length > 0
      modifies this, p
      ensures Valid() && origin == old(origin)
      ensures n <= p.Length && offset == old(offset) + n && bytesRead == old(bytesRead) + n
      ensures n > 0 ==> offset <= |content| && p[..n] == content[old(offset)..offset]
      ensures n > 0 <==> err == None
      ensures delivered == old(delivered) + p[..n] && p[n..] == old(p[n..])
      ensures var r := old(Reads(p.Length)); n == r.n && err == r.err && State() == r.c
      ensures old(Reads(p.Length)).failures <= maxRetries + 1
      ensures err == None || err == Some(EOF) || err == Some(Cancelled) ||
              old(Reads(p.Length)).failures == maxRetries + 1
      ensures err == Some(Cancelled) ==> CancelledWithin(net, old(tick), tick)
      ensures size >= 0 && old(offset) < size ==>
        (err == Some(EOF) <==>
          old(Reads(p.Length)).failures == maxRetries + 1 &&
          ReplayEnds(net, old(Reads(p.Length)).last, old(offset), |content|))
    {
      hide Between, Attempted, ReplayEnds, ReadFrom, CancelledWithin;
      EarlyEndIff(net, State(), offset, |content|, p.Length, maxRetries, canResolve);
      Outcome(net, State(), offset, |content|, p.Length, maxRetries, canResolve);
      var retries := 0;
      while true
        invariant Valid() && retries <= maxRetries
        invariant offset == old(offset) && bytesRead == old(bytesRead)
        invariant origin == old(origin) && delivered == old(delivered) && p[0..] == old(p[0..])
        invariant old(Reads(p.Length)) ==
          After(retries, ReadFrom(net, State(), offset, |content|, p.Length, maxRetries - retries, canResolve))
        decreases maxRetries - retries
      {
        OneTurn(net, State(), offset, |content|, p.Length, maxRetries - retries, canResolve);
        var again;
        n, err, again := Attempt(p);
        if !again {
          return n, err;
        }
        retries := retries + 1;
        if retries > maxRetries {
          return 0, err;
        }
        RefreshURL();
      }
    }

    /** The length, if it is known or can be found out; the stream does not move. */
    method SizeOf() returns (r: int)
      requires Valid()
      modifies this
      ensures Valid() && offset == old(offset) && bytesRead == old(bytesRead)
      ensures origin == old(origin) && delivered == old(delivered)
      ensures r == size && (r == -1 || r == |content|)
      ensures State() ==
        if old(size) >= 0 || old(body).Some? then old(State()) else Opened(net, old(State()), offset, |content|).0
    {
      if size < 0 {
        var _ := EnsureBody();
      }
      r := size;
    }

    /** What a seek distance counts from. */
    function Anchor(whence: Whence, at: nat): nat {
      match whence
      case SeekStart => 0
      case SeekCurrent => at
      case SeekEnd => |content|
    }

    /** A seek moves the stream and starts a new count of what is delivered; it never reads. */
    method Seek(distance: int, whence: Whence) returns (at: int, err: Option<Error>)
      requires Valid()
      modifies this
      ensures Valid() && bytesRead == old(bytesRead)
      ensures whence != SeekEnd ==> tick == old(tick) && size == old(size)
      ensures err == None && at != old(offset) ==> body == None
      ensures err == None ==> at >= 0 && offset == at && (at != old(offset) ==> origin == at && delivered == [])
      ensures err == None ==> at == Anchor(whence, old(offset)) + distance
      ensures err == None && at == old(offset) ==> origin == old(origin) && delivered == old(delivered)
      ensures err != None ==> offset == old(offset) && origin == old(origin) && delivered == old(delivered)
      ensures err != None ==> (whence == SeekEnd && size == -1) || Anchor(whence, old(offset)) + distance < 0
    {
      var target;
      match whence {
        case SeekStart =>
          target := distance;
        case SeekCurrent =>
          target := offset + distance;
        case SeekEnd =>
          var known := SizeOf();
          if known < 0 {
            return 0, Some(BadSeek);
          }
          target := size + distance;
      }
      if target < 0 {
        return 0, Some(BadSeek);
      }
      if target != offset {
        body := None;
        offset := target;
        origin, delivered := target, [];
      }
      return target, None;
    }
  }

  /** A connection at byte 0 has nothing to throw away. */
  lemma SkipsNothing(net: Outcomes, t: nat, left: nat, sized: bool)
    ensures Skipped(net, t, 0, left, sized) == Part(0, Through, t)
  {
  }

  // ---------------------------------------------------------------- an early end

  /**
    A server that announces the length once, then ignores the range and ends each connection at once: after a
    seek to byte 1 of 2 the end is reported, although the size is known and a byte is left.
   */
  method EarlyEnd(maxRetries: nat) returns (src: MediaSource, err: Option<Error>)
    ensures src.Valid() && err == Some(EOF) && src.size == 2 && src.offset == 1
  {
    hide Between, CutOff, ReadFrom;
    var net := Outcomes(t => Full(t == 0), t => End, t => None, t => false);
    EndsAtOnce(net);
    var content: seq<byte> := [7, 7];
    src := new MediaSource(content, net, maxRetries, false, "");
    SkipsNothing(net, 1, 2, true);
    var size := src.SizeOf();
    var at, seekErr := src.Seek(1, SeekStart);
    var p := new byte[1];
    CutOffEnds(net, src.State(), 1, 2, 1, maxRetries, false);
    var n, end := src.Read(p);
    err := end;
  }

  lemma EndsAtOnce(net: Outcomes)
    requires net == Outcomes(t => Full(t == 0), t => End, t => None, t => false)
    ensures net.opening(0) == Full(true) && CutOff(net, 1)
  {
  }

  // ---------------------------------------------------------------- any sequence of calls

  datatype Op = ReadUpTo(limit: nat) | SeekBy(distance: int, whence: Whence) | AskSize

  /** What a call returned. A read into no room returns nothing and is not made. */
  datatype Returned = Got(data: seq<byte>,
    err: Option<Error>) | NoRoom | MovedTo(target: nat) | Stayed | Size(size: int)

  /** Where the stream is after the calls. */
  function OffsetAfter(start: nat, log: seq<Returned>): nat {
    if |log| == 0 then start
    else
      var before := OffsetAfter(start, log[..|log| - 1]);
      match log[|log| - 1]
      case Got(data, _) => before + |data|
      case MovedTo(target) => target
      case _ => before
  }

  /** The target of the last accepted seek. */
  function LastTarget(start: nat, log: seq<Returned>): nat {
    if |log| == 0 then start
    else if log[|log| - 1].MovedTo? then log[|log| - 1].target
    else LastTarget(start, log[..|log| - 1])
  }

  /** All bytes that were read since then, in order. */
  function SinceTarget(log: seq<Returned>): seq<byte> {
    if |log| == 0 then []
    else
      match log[|log| - 1]
      case Got(data, _) => SinceTarget(log[..|log| - 1]) + data
      case MovedTo(_) => []
      case _ => SinceTarget(log[..|log| - 1])
  }

  function BytesIn(log: seq<Returned>): nat {
    if |log| == 0 then 0
    else BytesIn(log[..|log| - 1]) + if log[|log| - 1].Got? then |log[|log| - 1].data| else 0
  }

  /** What a call may return at an offset. */
  ghost predicate Answers(src: MediaSource, op: Op, at: nat, r: Returned) {
    match op
    case ReadUpTo(limit) =>
      if limit == 0 then r == NoRoom
      else
        && r.Got? && |r.data| <= limit && (r.data == [] <==> r.err.Some?)
        && (Reliable(src.net) && at < |src.content| ==> r.data != [])
    case SeekBy(distance, whence) =>
      var target := src.Anchor(whence, at) + distance;
      if target < 0 then r == Stayed
      else r == MovedTo(target) || (r == Stayed && whence == SeekEnd)
    case AskSize => r == Size(-1) || r == Size(|src.content|)
  }

  lemma LogMore(start: nat, log: seq<Returned>, r: Returned)
    ensures OffsetAfter(start, log + [r]) ==
      (match r case Got(data, _) => OffsetAfter(start, log) + |data| case MovedTo(target) => target
               case _ => OffsetAfter(start, log))
    ensures LastTarget(start, log + [r]) == if r.MovedTo? then r.target else LastTarget(start, log)
    ensures SinceTarget(log + [r]) ==
      (match r case Got(data, _) => SinceTarget(log) + data case MovedTo(_) => [] case _ => SinceTarget(log))
    ensures BytesIn(log + [r]) == BytesIn(log) + if r.Got? then |r.data| else 0
  {
    assert (log + [r])[..|log|] == log;
  }

  /**
    Any sequence of reads, seeks and size questions, under any outcomes. Each call returns what it may; the bytes
    read since the last accepted seek are the content from its target on; BytesRead counts every byte read.
   */
  method Replay(src: MediaSource, ops: seq<Op>) returns (log: seq<Returned>)
    requires src.Valid()
    modifies src
    ensures src.Valid() && |log| == |ops|
    ensures forall i :: 0 <= i < |ops| ==> Answers(src, ops[i], OffsetAfter(old(src.offset), log[..i]), log[i])
    ensures src.offset == OffsetAfter(old(src.offset), log)
    ensures var target := LastTarget(old(src.offset), log);
      src.offset == target + |SinceTarget(log)| && SinceTarget(log) == Between(src.content, target, src.offset)
    ensures src.bytesRead == old(src.bytesRead) + BytesIn(log)
  {
    hide Between, OffsetAfter, LastTarget, SinceTarget, BytesIn, Reliable;
    log := [];
    ghost var start := src.offset;
    NothingBetween(src.content, start);
    NothingLogged(start);
    for i := 0 to |ops|
      invariant src.Valid() && |log| == i
      invariant forall j :: 0 <= j < i ==> Answers(src, ops[j], OffsetAfter(start, log[..j]), log[j])
      invariant src.offset == OffsetAfter(start, log)
      invariant LastTarget(start, log) + |SinceTarget(log)| == src.offset
      invariant SinceTarget(log) == Between(src.content, LastTarget(start, log), src.offset)
      invariant src.bytesRead == old(src.bytesRead) + BytesIn(log)
    {
      ghost var was := src.offset;
      var r;
      match ops[i] {
        case ReadUpTo(limit) =>
          r := NoRoom;
          if limit > 0 {
            var p := new byte[limit];
            ReliableAt(src.net, src.State(), was, |src.content|, limit, src.maxRetries, src.canResolve);
            var n, err := src.Read(p);
            r := Got(p[..n], err);
            BetweenGrows(src.content, LastTarget(start, log), was, src.offset, p[..n]);
          }
        case SeekBy(distance, whence) =>
          var at, err := src.Seek(distance, whence);
          r := if err == None then MovedTo(at) else Stayed;
          NothingBetween(src.content, src.offset);
        case AskSize =>
          var size := src.SizeOf();
          r := Size(size);
      }
      LogMore(start, log, r);
      assert Answers(src, ops[i], was, r);
      assert (log + [r])[..i] == log;
      assert forall j :: 0 <= j < i ==> (log + [r])[..j] == log[..j];
      log := log + [r];
    }
    assert log[..|log|] == log;
  }

  lemma ReliableAt(net: Outcomes, c: Conn, offset: nat, length: nat, limit: nat, left: nat, canResolve: bool)
    requires limit > 0
    ensures Reliable(net) && offset < length ==> ReadFrom(net, c, offset, length, limit, left, canResolve).n > 0
  {
    if Reliable(net) && offset < length {
      ReliableReads(net, c, offset, length, limit, left, canResolve);
    }
  }

  lemma NothingLogged(start: nat)
    ensures OffsetAfter(start, []) == LastTarget(start, []) == start && SinceTarget([]) == [] && BytesIn([]) == 0
  {
  }

  lemma NothingBetween(s: seq<byte>, a: nat)
    ensures Between(s, a, a) == []
  {
  }

  lemma BetweenGrows(s: seq<byte>, a: nat, b: nat, c: nat, data: seq<byte>)
    requires a <= b && c == b + |data| && (|data| > 0 ==> c <= |s| && data == s[b..c])
    ensures Between(s, a, c) == Between(s, a, b) + data
  {
  }
}
