/** The packet queue between the demuxer and the encoding worker (internal/transcode/transcode_c.c:477-602). */
module Queue {
  import opened Wrappers

  const DEFAULT_CAPACITY := 48
  const LIVE_CAPACITY := 96

  datatype Packet = Packet(stream: int, payload: seq<int>)

  datatype PushResult = Pushed | EndOfFile | OutOfMemory | MustWait

  // ---------------------------------------------------------------- what a queue does, on values

  /** What is queued, how much may be, and whether more may come. */
  datatype Line = Line(packets: seq<Packet>, cap: nat, done: bool)

  /** What a push meets; a caller told to wait comes back when it is signalled. */
  function PushMeets(l: Line, memory: bool): PushResult {
    if |l.packets| >= l.cap && !l.done then MustWait
    else if l.done then EndOfFile
    else if !memory then OutOfMemory
    else Pushed
  }

  function Appended(l: Line, p: Packet): Line {
    l.(packets := l.packets + [p])
  }

  function Rest(l: Line): Line
    requires |l.packets| > 0
  {
    l.(packets := l.packets[1..])
  }

  function Closed(l: Line): Line {
    l.(done := true)
  }

  predicate Exhausted(l: Line) {
    l.done && |l.packets| == 0
  }

  // ---------------------------------------------------------------- the linked list

  class PacketNode {
    var pkt: Packet
    var next: PacketNode?

    constructor (pkt: Packet)
      ensures this.pkt == pkt && next == null
    {
      this.pkt, next := pkt, null;
    }
  }

  ghost function Following(nodes: seq<PacketNode>, i: nat): PacketNode?
    requires i < |nodes|
  {
    if i + 1 < |nodes| then nodes[i + 1] else null
  }

  lemma FirstMoves(a: seq<Packet>, b: seq<Packet>)
    ensures |b| > 0 ==> (a + [b[0]]) + b[1..] == a + b
  {
  }

  class PacketQueue {
    var head: PacketNode?
    var tail: PacketNode?
    var count: int
    var capacity: int
    var done: bool
    var exitCode: int
    var initialized: bool
    ghost var nodes: seq<PacketNode>

    ghost predicate Linked()
      reads this, nodes
    {
      && (forall i :: 0 <= i < |nodes| ==> nodes[i].next == Following(nodes, i))
      && (forall i, j :: 0 <= i < j < |nodes| ==> nodes[i] != nodes[j])
      && head == if |nodes| > 0 then nodes[0] else null
    }

    ghost predicate Valid()
      reads this, nodes
    {
      && Linked() && initialized
      && tail == (if |nodes| > 0 then nodes[|nodes| - 1] else null)
      && count == |nodes| && count <= Limit()
    }

    /** What the queue holds, oldest first. */
    ghost function Packets(): (packets: seq<Packet>)
      reads this, nodes
      ensures |packets| == |nodes|
    {
      seq(|nodes|, i requires 0 <= i < |nodes| reads this, nodes => nodes[i].pkt)
    }

    ghost function View(): Line
      reads this, nodes
    {
      Line(Packets(), Limit(), done)
    }

    function Limit(): (cap: nat)
      reads this
      ensures cap > 0
    {
      if capacity > 0 then capacity else DEFAULT_CAPACITY
    }

    constructor (capacity: int)
      ensures Valid() && nodes == [] && exitCode == 0
      ensures View() == Line([], if capacity > 0 then capacity else 48, false)
    {
      head, tail, count, done, exitCode, initialized := null, null, 0, false, 0, true;
      this.capacity := if capacity > 0 then capacity else DEFAULT_CAPACITY;
      nodes := [];
    }

    /** One pass through the locked section. */
    method Push(pkt: Packet, memory: bool) returns (r: PushResult)
      requires Valid()
      modifies this`head, this`tail, this`count, this`nodes, nodes
      ensures Valid()
      ensures r == PushMeets(old(View()), memory)
      ensures r == MustWait <==> |old(Packets())| >= Limit() && !done
      ensures r == EndOfFile <==> done
      ensures Packets() == if r == Pushed then old(Packets()) + [pkt] else old(Packets())
      ensures View() == if r == Pushed then Appended(old(View()), pkt) else old(View())
      ensures nodes == old(nodes) || (nodes[..|nodes| - 1] == old(nodes) && fresh(nodes[|nodes| - 1]))
    {
      var cap := Limit();
      if count >= cap && !done {
        return MustWait;
      }
      if done {
        return EndOfFile;
      }
      if !memory {
        return OutOfMemory;
      }
      var node := new PacketNode(pkt);
      if tail != null {
        tail.next := node;
      } else {
        head := node;
      }
      tail := node;
      count := count + 1;
      nodes := nodes + [node];
      return Pushed;
    }

    /** The first node is unlinked. */
    method Unlink() returns (pkt: Packet)
      requires Linked() && head != null
      modifies this`head, this`nodes
      ensures Linked() && nodes == old(nodes)[1..]
      ensures pkt == old(Packets())[0] && Packets() == old(Packets())[1..]
    {
      var node := head;
      head := node.next;
      pkt := node.pkt;
      ghost var all := nodes;
      nodes := nodes[1..];
      forall i | 0 <= i < |nodes|
        ensures nodes[i].next == Following(nodes, i)
      {
        assert nodes[i] == all[i + 1];
      }
    }

    method TryPop() returns (pkt: Option<Packet>)
      requires Valid()
      modifies this`head, this`tail, this`count, this`nodes
      ensures Valid()
      ensures pkt == if |old(View()).packets| > 0 then Some(old(View()).packets[0]) else None
      ensures View() == if |old(View()).packets| > 0 then Rest(old(View())) else old(View())
      ensures old(Packets()) == if pkt.Some? then [pkt.value] + Packets() else []
    {
      if head == null {
        return None;
      }
      var first := Unlink();
      if head == null {
        tail := null;
      }
      count := count - 1;
      return Some(first);
    }

    method EmptyDone() returns (finished: bool)
      requires Valid()
      ensures finished <==> Exhausted(View())
      ensures finished <==> done && Packets() == []
    {
      finished := done && head == null;
    }

    method Finish(exitCode: int)
      requires Valid()
      modifies this`done, this`exitCode
      ensures Valid() && View() == Closed(old(View())) && this.exitCode == exitCode
      ensures done && Packets() == old(Packets())
    {
      done := true;
      this.exitCode := exitCode;
    }

    /** Frees what is still queued, each packet once and in order. */
    method Destroy() returns (freed: seq<Packet>)
      requires initialized ==> Valid()
      modifies this`head, this`initialized, this`nodes
      ensures freed == if old(initialized) then old(Packets()) else []
      ensures !initialized && (old(initialized) ==> head == null && Packets() == [])
    {
      freed := [];
      if !initialized {
        return;
      }
      while head != null
        invariant Linked()
        invariant freed + Packets() == old(Packets())
        decreases |nodes|
      {
        FirstMoves(freed, Packets());
        var pkt := Unlink();
        freed := freed + [pkt];
      }
      initialized := false;
    }
  }
}
