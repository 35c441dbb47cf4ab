/**
  Replacing a running stream without leaving the voice channel (internal/pool/pool.go:267-306, 437-612, 673-785
  and 804-900): playback loops end, callers acquire, swap, seek and release, all on one session. Steps are the
  sections the pool's lock makes indivisible and the single writes between them.
 */
module SwapRun {
  import opened Wrappers

  // ---------------------------------------------------------------- the session

  /** What belongs to one stream and must not leak into the next. */
  datatype PerStream = PerStream(
    captionSource: string, fontsDir: string, metadata: Option<string>, ctas: seq<int>, creditsTriggerMs: int,
    nearEndTriggered: bool, liveAttempt: nat)

  function Blank(): PerStream {
    PerStream("", "", None, [], 0, false, 0)
  }

  datatype Request = Request(live: bool, hls: bool)

  /**
    What the session refers to: its request, the seek that waits to be taken, and whether a segment's cancel
    function, a source and the transcoder's pause functions are installed.
   */
  datatype Handles = Handles(
    request: Option<Request>, pendingSeek: Option<int>, segmentCancel: bool, media: bool, hooks: bool)

  /** `controller` cancels the loop it names; `loopDone` is the channel made for the loop it names. */
  datatype Fields = Fields(
    busy: bool, paused: bool, stopRequested: bool, swapping: bool, stream: PerStream, handles: Handles,
    controller: Option<nat>, loopDone: Option<nat>)

  function Acquired(f: Fields): Fields {
    f.(busy := true, paused := false, stopRequested := false, stream := Blank())
  }

  function Rearmed(f: Fields): Fields {
    Acquired(f).(swapping := false)
  }

  function Unbusy(f: Fields): Fields {
    f.(busy := false, paused := false, stopRequested := false)
  }

  function Cleared(f: Fields): Fields {
    f.(controller := None, stream := Blank(), handles := Handles(None, None, false, false, false))
  }

  /** The request and the pause functions stay. */
  function TornDown(f: Fields): Fields {
    f.(controller := None, handles := f.handles.(pendingSeek := None, segmentCancel := false, media := false))
  }

  class Session {
    var busy: bool
    var paused: bool
    var stopRequested: bool
    var swapping: bool
    var captionSource: string
    var fontsDir: string
    var metadata: Option<string>
    var ctas: seq<int>
    var creditsTriggerMs: int
    var nearEndTriggered: bool
    var liveAttempt: nat
    var request: Option<Request>
    var pendingSeek: Option<int>
    var segmentCancel: bool
    var media: bool
    var hooks: bool
    var controller: Option<nat>
    var loopDone: Option<nat>

    constructor ()
      ensures Value() ==
        Fields(false, false, false, false, Blank(), Handles(None, None, false, false, false), None, None)
    {
      busy, paused, stopRequested, swapping := false, false, false, false;
      captionSource, fontsDir, metadata, ctas := "", "", None, [];
      creditsTriggerMs, nearEndTriggered, liveAttempt := 0, false, 0;
      request, pendingSeek, segmentCancel, media, hooks := None, None, false, false, false;
      controller, loopDone := None, None;
    }

    function Value(): (f: Fields)
      reads this
    {
      Fields(busy, paused, stopRequested, swapping,
        PerStream(captionSource, fontsDir, metadata, ctas, creditsTriggerMs, nearEndTriggered, liveAttempt),
        Handles(request, pendingSeek, segmentCancel, media, hooks), controller, loopDone)
    }

    /** Nothing is set that belongs to one stream. */
    predicate IsBlank()
      reads this
    {
      captionSource == "" && fontsDir == "" && metadata == None && ctas == [] && creditsTriggerMs == 0 &&
      !nearEndTriggered && liveAttempt == 0
    }

    method ForgetStream()
      modifies this
      ensures Value() == old(Value()).(stream := Blank()) && IsBlank()
    {
      fontsDir, captionSource := "", "";
      metadata := None;
      ctas := [];
      creditsTriggerMs, nearEndTriggered, liveAttempt := 0, false, 0;
    }

    method Acquire() returns (ok: bool)
      modifies this
      ensures ok == !old(busy)
      ensures Value() == if ok then Acquired(old(Value())) else old(Value())
      ensures ok ==> busy && !paused && !stopRequested && IsBlank() && swapping == old(swapping)
    {
      if busy {
        return false;
      }
      busy, paused, stopRequested := true, false, false;
      ForgetStream();
      return true;
    }

    /** Play and PlayReusing, up to the start of the loop. */
    method Play(request: Request, loop: nat)
      modifies this`stopRequested, this`request, this`loopDone
      ensures Value() == Started(old(Value()), request, loop)
      ensures !stopRequested && this.request == Some(request) && loopDone == Some(loop) && busy == old(busy)
    {
      stopRequested := false;
      this.request := Some(request);
      loopDone := Some(loop);
    }

    /** The controller that is cancelled, if one is installed. */
    method Stop() returns (cancelled: Option<nat>)
      modifies this`stopRequested, this`paused
      ensures Value() == old(Value()).(stopRequested := true, paused := false) && cancelled == controller
    {
      stopRequested, paused := true, false;
      cancelled := controller;
    }

    /** The locked part of a swap: the channel to wait for, or None where the session is free to be acquired. */
    method BeginSwap() returns (streaming: bool, done: Option<nat>)
      modifies this`swapping
      ensures streaming == busy && swapping == (old(swapping) || busy)
      ensures done == if busy then loopDone else None
    {
      if !busy {
        return false, None;
      }
      swapping := true;
      return true, loopDone;
    }

    method RearmForSwap()
      modifies this
      ensures Value() == Rearmed(old(Value()))
      ensures busy && !paused && !stopRequested && !swapping && IsBlank()
      ensures request == old(request) && pendingSeek == old(pendingSeek) && hooks == old(hooks)
    {
      busy, paused, stopRequested, swapping := true, false, false, false;
      ForgetStream();
    }

    method TeardownForSwap()
      modifies this`controller, this`media, this`pendingSeek, this`segmentCancel
      ensures Value() == TornDown(old(Value()))
      ensures controller == None && !media && pendingSeek == None && !segmentCancel
      ensures request == old(request) && hooks == old(hooks) && busy == old(busy)
    {
      controller := None;
      media := false;
      pendingSeek, segmentCancel := None, false;
    }

    method Release()
      modifies this
      ensures Value() == Unbusy(Cleared(old(Value())))
      ensures controller == None && !media && request == None && !hooks && pendingSeek == None && !segmentCancel
      ensures !busy && !paused && !stopRequested && IsBlank() && swapping == old(swapping)
    {
      controller := None;
      media := false;
      request, hooks := None, false;
      pendingSeek, segmentCancel := None, false;
      ForgetStream();
      busy, paused, stopRequested := false, false, false;
    }
  }

  // ---------------------------------------------------------------- the run

  datatype Pc =
    | Launched       // the goroutine is started, it has not yet read its channel
    | Starting       // about to install its controller
    | Streaming
    | Stopping       // the stream has returned, the swap flag is still to be read
    | Tearing | TellSwapped | CloseSwapped          // the flag was set
    | Releasing | Freeing | CloseEnded | TellEnded  // the flag was not set
    | Gone

  datatype Reason = Ended | Stopped | Failed | Swapped

  /** `told` is what the stream's OnClose has been called with. */
  datatype Loop = Loop(pc: Pc, channel: Option<nat>, reason: Reason, sawSwap: bool, told: seq<Reason>)

  datatype Swap =
    | Acquiring
    | Cancelling(done: Option<nat>) | Waiting(done: Option<nat>) | Rearming(done: Option<nat>)
    | Returned(done: Option<nat>)
    | Fell   // the session was free and somebody else took it

  /**
    `holders` counts the callers that hold the session and have not yet started their stream; `sought` lists the
    targets of the seeks accepted since the session was last torn down or released.
   */
  datatype State = State(
    f: Fields, holders: nat, loops: seq<Loop>, swaps: seq<Swap>, closed: set<nat>, cancelled: set<nat>,
    sought: seq<int>, closedTwice: bool)

  datatype Step =
    | Acquire
    | Play(request: Request)            // Play and PlayReusing, up to the start of the loop
    | GiveUp                            // a caller whose stream could not be started releases the session
    | Stop
    | Seek(target: int)                 // with a target that lies in the medium
    | Take                              // a stream that runs takes the pending seek
    | Note(stream: PerStream)           // a stream that runs changes what belongs to it
    | LoopStep(i: nat, failed: bool)
    | SwapCall
    | SwapStep(k: nat)

  function Close(s: State, channel: Option<nat>): State {
    if channel.None? then s
    else s.(closed := s.closed + {channel.value}, closedTwice := s.closedTwice || channel.value in s.closed)
  }

  /** A loop's own part of its step. */
  function Stepped(l: Loop, f: Fields, failed: bool): Loop {
    match l.pc
    case Launched => l.(pc := Starting, channel := f.loopDone)
    case Starting => l.(pc := Streaming)
    case Streaming => l.(pc := Stopping, reason := if f.stopRequested then Stopped else if failed then Failed
      else Ended)
    case Stopping => l.(pc := if f.swapping then Tearing else Releasing, sawSwap := f.swapping)
    case Tearing => l.(pc := TellSwapped)
    case TellSwapped => l.(pc := CloseSwapped, told := l.told + [Swapped])
    case CloseSwapped => l.(pc := Gone)
    case Releasing => l.(pc := Freeing)
    case Freeing => l.(pc := CloseEnded)
    case CloseEnded => l.(pc := TellEnded)
    case TellEnded => l.(pc := Gone, told := l.told + [l.reason])
    case Gone => l
  }

  function DoLoop(s: State, i: nat, failed: bool): State
    requires i < |s.loops|
  {
    var l := s.loops[i];
    var t := s.(loops := s.loops[i := Stepped(l, s.f, failed)]);
    match l.pc
    case Starting => t.(f := s.f.(controller := Some(i)))
    case Tearing => t.(f := TornDown(s.f), sought := [])
    case CloseSwapped => Close(t, l.channel)
    case Releasing => t.(f := Cleared(s.f), sought := [])
    case Freeing => t.(f := Unbusy(s.f))
    case CloseEnded => Close(t, l.channel)
    case _ => t
  }

  function DoSwap(s: State, k: nat): State
    requires k < |s.swaps|
  {
    match s.swaps[k]
    case Acquiring =>
      if s.f.busy then s.(swaps := s.swaps[k := Fell])
      else s.(swaps := s.swaps[k := Returned(None)], f := Acquired(s.f), holders := s.holders + 1)
    case Cancelling(done) =>
      s.(swaps := s.swaps[k := Waiting(done)],
         cancelled := if s.f.controller.Some? then s.cancelled + {s.f.controller.value} else s.cancelled)
    case Waiting(done) =>
      if done.None? || done.value in s.closed then s.(swaps := s.swaps[k := Rearming(done)]) else s
    case Rearming(done) => s.(swaps := s.swaps[k := Returned(done)], f := Rearmed(s.f), holders := s.holders + 1)
    case Returned(_) => s
    case Fell => s
  }

  predicate Seekable(f: Fields) {
    f.busy && f.handles.request.Some? && !f.handles.request.value.live && !f.handles.request.value.hls
  }

  predicate Streams(s: State) {
    exists i :: 0 <= i < |s.loops| && s.loops[i].pc == Streaming
  }

  function Started(f: Fields, request: Request, loop: nat): Fields {
    f.(stopRequested := false, loopDone := Some(loop), handles := f.handles.(request := Some(request)))
  }

  function Do(s: State, step: Step): State {
    match step
    case Acquire => if s.f.busy then s else s.(f := Acquired(s.f), holders := s.holders + 1)
    case Play(request) =>
      if s.holders == 0 then s
      else
        s.(holders := s.holders - 1, f := Started(s.f, request, |s.loops|),
           loops := s.loops + [Loop(Launched, None, Ended, false, [])])
    case GiveUp =>
      if s.holders == 0 then s else s.(holders := s.holders - 1, f := Unbusy(Cleared(s.f)), sought := [])
    case Stop =>
      s.(f := s.f.(stopRequested := true, paused := false),
         cancelled := if s.f.controller.Some? then s.cancelled + {s.f.controller.value} else s.cancelled)
    case Seek(target) =>
      if Seekable(s.f) then
        s.(f := s.f.(handles := s.f.handles.(pendingSeek := Some(target))), sought := s.sought + [target])
      else s
    case Take => if Streams(s) then s.(f := s.f.(handles := s.f.handles.(pendingSeek := None))) else s
    case Note(stream) =>
      if Streams(s) then
        s.(f := s.f.(stream := stream,
                     handles := s.f.handles.(segmentCancel := true, media := true, hooks := true)))
      else s
    case LoopStep(i, failed) => if i < |s.loops| then DoLoop(s, i, failed) else s
    case SwapCall =>
      if !s.f.busy then s.(swaps := s.swaps + [Acquiring])
      else s.(swaps := s.swaps + [Cancelling(s.f.loopDone)], f := s.f.(swapping := true))
    case SwapStep(k) => if k < |s.swaps| then DoSwap(s, k) else s
  }

  function Run(s: State, steps: seq<Step>): State {
    if |steps| == 0 then s else Do(Run(s, steps[..|steps| - 1]), steps[|steps| - 1])
  }

  ghost predicate Initial(s: State) {
    && !s.f.busy && !s.f.swapping && s.f.controller == None && s.f.loopDone == None
    && s.f.handles == Handles(None, None, false, false, false) && s.sought == []
    && s.holders == 0 && s.loops == [] && s.swaps == [] && s.closed == {} && s.cancelled == {} && !s.closedTwice
  }

  predicate Waits(w: Swap) {
    w.Cancelling? || w.Waiting? || w.Rearming?
  }

  ghost predicate InFlight(s: State) {
    exists k :: 0 <= k < |s.swaps| && Waits(s.swaps[k])
  }

  /**
    Callers take turns: while one swap waits for the loop nobody else swaps, or acquires the session when it
    has just become free; and nobody swaps between an acquisition and the start of its stream.
   */
  ghost predicate TakesTurns(s: State, step: Step) {
    match step
    case Acquire => !s.f.busy ==> !InFlight(s)
    case SwapCall => s.f.busy ==> !InFlight(s) && s.holders == 0
    case SwapStep(k) => k < |s.swaps| && s.swaps[k].Acquiring? && !s.f.busy ==> !InFlight(s)
    case _ => true
  }

  ghost predicate InTurns(s: State, steps: seq<Step>) {
    forall n :: 0 <= n < |steps| ==> TakesTurns(Run(s, steps[..n]), steps[n])
  }

  // ---------------------------------------------------------------- what every run keeps

  /** Still on the way to give up the session. */
  predicate Live(l: Loop) {
    !l.pc.CloseEnded? && !l.pc.TellEnded? && !l.pc.Gone?
  }

  predicate PastClose(l: Loop) {
    l.pc.TellEnded? || l.pc.Gone?
  }

  /** Its controller is installed: the loop can be cancelled. */
  predicate Reachable(l: Loop) {
    l.pc.Streaming? || l.pc.Stopping? || l.pc.Tearing? || l.pc.Releasing?
  }

  /** What a loop has told, which depends on nothing but its own steps. */
  ghost predicate Telling(l: Loop) {
    && l.reason != Swapped
    && (l.pc.Tearing? || l.pc.TellSwapped? || l.pc.CloseSwapped? ==> l.sawSwap)
    && (l.pc.Releasing? || l.pc.Freeing? || l.pc.CloseEnded? || l.pc.TellEnded? ==> !l.sawSwap)
    && l.told == (if l.pc.Gone? || l.pc.CloseSwapped? then [if l.sawSwap then Swapped else l.reason] else [])
  }

  ghost predicate LoopGood(s: State, i: nat)
    requires i < |s.loops|
  {
    var l := s.loops[i];
    && (Live(l) ==> i == |s.loops| - 1 && s.f.busy && s.holders == 0)
    && (!PastClose(l) && Live(l) ==> s.f.loopDone == Some(i))
    && (!l.pc.Launched? ==> l.channel == Some(i))
    && (i in s.closed <==> PastClose(l))
    && (l.pc.Tearing? || l.pc.TellSwapped? || l.pc.CloseSwapped? ==> s.f.swapping)
    && Telling(l)
  }

  ghost predicate SwapGood(s: State, k: nat)
    requires k < |s.swaps|
  {
    var w := s.swaps[k];
    && (Waits(w) ==> w.done == Some(|s.loops| - 1) && |s.loops| > 0 && s.holders == 0 && s.f.swapping)
    && (w.Rearming? || w.Returned? ==> w.done.Some? ==> w.done.value < |s.loops| && w.done.value in s.closed)
  }

  ghost predicate Alone(s: State) {
    forall j, k :: 0 <= j < |s.swaps| && 0 <= k < |s.swaps| && Waits(s.swaps[j]) && Waits(s.swaps[k]) ==> j == k
  }

  ghost predicate Good(s: State) {
    && (forall i :: 0 <= i < |s.loops| ==> LoopGood(s, i))
    && (forall k :: 0 <= k < |s.swaps| ==> SwapGood(s, k))
    && Alone(s)
    && (s.f.swapping ==> InFlight(s))
    && (s.holders > 0 ==> s.f.busy && s.holders == 1)
    && (s.f.busy && s.holders == 0 && !InFlight(s) ==> |s.loops| > 0 && Live(s.loops[|s.loops| - 1]))
    && (forall c :: c in s.closed ==> c < |s.loops|)
    && !s.closedTwice && ControllerGood(s)
  }

  ghost predicate ControllerGood(s: State) {
    s.f.controller ==
      if |s.loops| > 0 && Reachable(s.loops[|s.loops| - 1]) then Some(|s.loops| - 1) else None
  }

  lemma LoopKeepsTelling(s: State, i: nat, failed: bool)
    requires i < |s.loops| && Telling(s.loops[i])
    ensures Telling(DoLoop(s, i, failed).loops[i])
  {
    hide Telling;
    StaysTelling(s.loops[i], s.f, failed);
  }

  lemma StaysTelling(l: Loop, f: Fields, failed: bool)
    requires Telling(l)
    ensures Telling(Stepped(l, f, failed))
  {
  }

  lemma LoopItselfGood(s: State, i: nat, failed: bool)
    requires i < |s.loops| && LoopGood(s, i) && !s.closedTwice
    ensures var t := DoLoop(s, i, failed); |t.loops| == |s.loops| && LoopGood(t, i) && !t.closedTwice
  {
    hide Telling;
    LoopKeepsTelling(s, i, failed);
  }

  /** What a step of one loop leaves to the others. */
  lemma LoopFrame(s: State, i: nat, failed: bool)
    requires i < |s.loops| && LoopGood(s, i)
    ensures var t := DoLoop(s, i, failed);
      && t.swaps == s.swaps && t.holders == s.holders
      && t.f.swapping == s.f.swapping && t.f.loopDone == s.f.loopDone
      && t.f.busy == (s.f.busy && s.loops[i].pc != Freeing)
      && |t.loops| == |s.loops|
      && (Live(t.loops[i]) <==> Live(s.loops[i]) && s.loops[i].pc != Freeing && s.loops[i].pc != CloseSwapped)
      && (forall j :: 0 <= j < |s.loops| && j != i ==> t.loops[j] == s.loops[j])
      && (forall c :: c != i ==> (c in t.closed <==> c in s.closed)) && s.closed <= t.closed
  {
  }

  lemma ControllerMoves(s: State, i: nat, failed: bool)
    requires i < |s.loops|
    ensures var t := DoLoop(s, i, failed); var pc := s.loops[i].pc;
      && |t.loops| == |s.loops| && (forall j :: 0 <= j < |s.loops| && j != i ==> t.loops[j] == s.loops[j])
      && t.f.controller == (if pc == Starting then Some(i) else if pc == Tearing || pc == Releasing then None
           else s.f.controller)
      && (Reachable(t.loops[i]) <==> pc == Starting || pc == Streaming || pc == Stopping)
  {
  }

  lemma LoopKeepsController(s: State, i: nat, failed: bool)
    requires i < |s.loops| && (Live(s.loops[i]) ==> i == |s.loops| - 1) && ControllerGood(s)
    ensures ControllerGood(DoLoop(s, i, failed))
  {
    hide DoLoop;
    ControllerMoves(s, i, failed);
  }

  lemma LoopKeepsGood(s: State, i: nat, failed: bool)
    requires Good(s) && i < |s.loops|
    ensures Good(DoLoop(s, i, failed))
  {
    hide DoLoop;
    var t := DoLoop(s, i, failed);
    assert LoopGood(s, i);
    LoopItselfGood(s, i, failed);
    LoopFrame(s, i, failed);
    LoopKeepsController(s, i, failed);
    forall k | 0 <= k < |t.swaps| ensures SwapGood(t, k) {
      assert SwapGood(s, k);
    }
    forall j | 0 <= j < |t.loops| ensures LoopGood(t, j) {
      assert LoopGood(s, j) && LoopGood(s, i);
    }
    assert InFlight(t) == InFlight(s);
  }

  lemma SwapKeepsGood(s: State, k: nat)
    requires Good(s) && k < |s.swaps| && (s.swaps[k].Acquiring? && !s.f.busy ==> !InFlight(s))
    ensures Good(DoSwap(s, k))
  {
    var t := DoSwap(s, k);
    assert SwapGood(s, k) && |t.swaps| == |s.swaps|;
    forall j | 0 <= j < |t.swaps| ensures SwapGood(t, j) {
      assert SwapGood(s, j);
    }
    forall i | 0 <= i < |t.loops| ensures LoopGood(t, i) {
      assert LoopGood(s, i);
    }
    if Waits(t.swaps[k]) {
      assert InFlight(t);
    }
    if !Waits(s.swaps[k]) && InFlight(s) {
      var j :| 0 <= j < |s.swaps| && Waits(s.swaps[j]);
      assert t.swaps[j] == s.swaps[j];
    }
  }

  lemma PlayKeepsGood(s: State, request: Request)
    requires Good(s)
    ensures Good(Do(s, Play(request)))
  {
    var t := Do(s, Play(request));
    assert |s.loops| > 0 ==> LoopGood(s, |s.loops| - 1);
    forall k | 0 <= k < |t.swaps| ensures SwapGood(t, k) {
      assert SwapGood(s, k);
    }
    forall i | 0 <= i < |t.loops| ensures LoopGood(t, i) {
      assert i < |s.loops| ==> LoopGood(s, i);
    }
    assert InFlight(t) == InFlight(s);
  }

  lemma CallKeepsGood(s: State)
    requires Good(s) && TakesTurns(s, SwapCall)
    ensures Good(Do(s, SwapCall))
  {
    var t := Do(s, SwapCall);
    if s.f.busy {
      assert LoopGood(s, |s.loops| - 1);
      assert Waits(t.swaps[|s.swaps|]);
      assert InFlight(t);
    } else {
      assert InFlight(s) ==> InFlight(t) by {
        if k :| 0 <= k < |s.swaps| && Waits(s.swaps[k]) {
          assert Waits(t.swaps[k]);
        }
      }
    }
    forall k | 0 <= k < |t.swaps| ensures SwapGood(t, k) {
      assert k < |s.swaps| ==> SwapGood(s, k);
      assert k < |s.swaps| && Waits(s.swaps[k]) ==> InFlight(s);
    }
    forall i | 0 <= i < |t.loops| ensures LoopGood(t, i) {
      assert LoopGood(s, i);
    }
  }

  lemma OtherKeepsGood(s: State, step: Step)
    requires Good(s) && TakesTurns(s, step)
    requires step.Acquire? || step.GiveUp? || step.Stop? || step.Note? || step.Seek? || step.Take?
    ensures Good(Do(s, step))
  {
    var t := Do(s, step);
    assert t.swaps == s.swaps && t.loops == s.loops;
    assert |s.loops| > 0 ==> LoopGood(s, |s.loops| - 1);
    assert InFlight(t) == InFlight(s);
    forall k | 0 <= k < |t.swaps| ensures SwapGood(t, k) {
      assert SwapGood(s, k);
      assert Waits(s.swaps[k]) ==> InFlight(s);
    }
    forall i | 0 <= i < |t.loops| ensures LoopGood(t, i) {
      assert LoopGood(s, i);
    }
  }

  lemma GoodStep(s: State, step: Step)
    requires Good(s) && TakesTurns(s, step)
    ensures Good(Do(s, step))
  {
    hide Good, DoLoop, DoSwap;
    match step
    case LoopStep(i, failed) => if i < |s.loops| { LoopKeepsGood(s, i, failed); }
    case SwapStep(k) => if k < |s.swaps| { SwapKeepsGood(s, k); }
    case SwapCall => CallKeepsGood(s);
    case Play(request) => PlayKeepsGood(s, request);
    case _ => OtherKeepsGood(s, step);
  }

  lemma {:induction false} AlwaysGood(s: State, steps: seq<Step>)
    requires Initial(s) && InTurns(s, steps)
    ensures Good(Run(s, steps))
  {
    hide Do, TakesTurns;
    if |steps| > 0 {
      var before := steps[..|steps| - 1];
      assert forall n :: 0 <= n < |before| ==> before[..n] == steps[..n];
      AlwaysGood(s, before);
      GoodStep(Run(s, before), steps[|steps| - 1]);
    }
  }

  // ---------------------------------------------------------------- claims, in every run

  /** The loops on their way to giving up the session. */
  function LiveCount(loops: seq<Loop>): nat {
    if |loops| == 0 then 0 else LiveCount(loops[..|loops| - 1]) + if Live(loops[|loops| - 1]) then 1 else 0
  }

  /** How many callers and loops believe the session to be theirs. */
  function Claims(s: State): nat {
    s.holders + LiveCount(s.loops)
  }

  /** The session is handed to a caller. */
  predicate Grants(s: State, step: Step) {
    match step
    case Acquire => !s.f.busy
    case SwapStep(k) => k < |s.swaps| && ((s.swaps[k].Acquiring? && !s.f.busy) || s.swaps[k].Rearming?)
    case _ => false
  }

  /** A caller, or a loop that got the session from one, gives it back. */
  predicate Ends(s: State, step: Step) {
    match step
    case GiveUp => s.holders > 0
    case LoopStep(i, _) => i < |s.loops| && (s.loops[i].pc.Freeing? || s.loops[i].pc.CloseSwapped?)
    case _ => false
  }

  function GrantCount(s: State, steps: seq<Step>): nat {
    if |steps| == 0 then 0
    else
      var init := steps[..|steps| - 1];
      GrantCount(s, init) + if Grants(Run(s, init), steps[|steps| - 1]) then 1 else 0
  }

  function EndCount(s: State, steps: seq<Step>): nat {
    if |steps| == 0 then 0
    else
      var init := steps[..|steps| - 1];
      EndCount(s, init) + if Ends(Run(s, init), steps[|steps| - 1]) then 1 else 0
  }

  lemma {:induction false} LiveCountPut(loops: seq<Loop>, i: nat, l: Loop)
    requires i < |loops|
    ensures LiveCount(loops[i := l]) + (if Live(loops[i]) then 1 else 0) == LiveCount(loops) + if Live(l) then 1 else 0
  {
    var n := |loops| - 1;
    if i < n {
      LiveCountPut(loops[..n], i, l);
      assert loops[i := l][..n] == loops[..n][i := l];
    } else {
      assert loops[i := l][..n] == loops[..n];
    }
  }

  lemma LiveCountMore(loops: seq<Loop>, l: Loop)
    ensures LiveCount(loops + [l]) == LiveCount(loops) + if Live(l) then 1 else 0
  {
    assert (loops + [l])[..|loops|] == loops;
  }

  lemma {:induction false} NoneLive(loops: seq<Loop>)
    ensures LiveCount(loops) == 0 <==> forall i :: 0 <= i < |loops| ==> !Live(loops[i])
  {
    if |loops| > 0 {
      NoneLive(loops[..|loops| - 1]);
      assert loops == loops[..|loops| - 1] + [loops[|loops| - 1]];
    }
  }

  lemma LoopMovesClaims(s: State, i: nat, failed: bool)
    requires i < |s.loops|
    ensures var t := DoLoop(s, i, failed);
      && t.holders == s.holders && |t.loops| == |s.loops| && t.loops == s.loops[i := t.loops[i]]
      && (Live(t.loops[i]) <==> Live(s.loops[i]) && !Ends(s, LoopStep(i, failed)))
      && (Ends(s, LoopStep(i, failed)) ==> Live(s.loops[i]))
  {
  }

  /** Every step changes the number of claims by what it grants and what it ends. */
  lemma ClaimsStep(s: State, step: Step)
    ensures Claims(Do(s, step)) ==
      Claims(s) + (if Grants(s, step) then 1 else 0) - if Ends(s, step) then 1 else 0
  {
    hide LiveCount, Live, DoLoop;
    match step
    case LoopStep(i, failed) =>
      if i < |s.loops| {
        var t := DoLoop(s, i, failed);
        LoopMovesClaims(s, i, failed);
        LiveCountPut(s.loops, i, t.loops[i]);
      }
    case Play(request) =>
      var l := Loop(Launched, None, Ended, false, []);
      LiveCountMore(s.loops, l);
      assert Live(l) by { JustLaunchedIsLive(l); }
    case _ =>
  }

  lemma JustLaunchedIsLive(l: Loop)
    ensures l.pc == Launched ==> Live(l)
  {
  }

  /** In every run, turns or not, the claims are the grants that have not ended. */
  lemma {:induction false} ClaimsAreOpenGrants(s: State, steps: seq<Step>)
    requires Initial(s)
    ensures Claims(Run(s, steps)) == GrantCount(s, steps) - EndCount(s, steps)
  {
    hide Do, Claims, Grants, Ends;
    if |steps| == 0 {
      NoClaims(s);
    } else {
      var init := steps[..|steps| - 1];
      ClaimsAreOpenGrants(s, init);
      ClaimsStep(Run(s, init), steps[|steps| - 1]);
    }
  }

  lemma NoClaims(s: State)
    requires Initial(s)
    ensures Claims(s) == 0
  {
  }

  /** One caller holds the session and no loop is on its way to giving it up. */
  ghost predicate Exclusive(s: State) {
    s.holders == 1 && forall i :: 0 <= i < |s.loops| ==> !Live(s.loops[i])
  }

  /**
    In every run a swap that waited hands the session over to its caller alone (nobody else holds it, no loop is
    live) if and only if every grant before has ended.
   */
  lemma HandOverIsExclusiveIff(s: State, steps: seq<Step>, k: nat)
    requires Initial(s) && k < |Run(s, steps).swaps| && Run(s, steps).swaps[k].Rearming?
    ensures var t := Do(Run(s, steps), SwapStep(k));
      Exclusive(t) <==> GrantCount(s, steps) == EndCount(s, steps)
  {
    hide Run, LiveCount, Live, GrantCount, EndCount;
    ClaimsAreOpenGrants(s, steps);
    var e := Run(s, steps);
    NoneLive(e.loops);
    assert Do(e, SwapStep(k)).loops == e.loops && Do(e, SwapStep(k)).holders == e.holders + 1;
  }

  // ---------------------------------------------------------------- what a seek leaves behind

  predicate PastTeardown(l: Loop) {
    l.pc.TellSwapped? || l.pc.CloseSwapped? || l.pc.Freeing? || l.pc.CloseEnded? || l.pc.TellEnded? || l.pc.Gone?
  }

  function LastOf(xs: seq<int>): Option<int> {
    if |xs| == 0 then None else Some(xs[|xs| - 1])
  }

  /** Once the last loop has torn down or released the session, nothing takes a seek. */
  ghost predicate SeekGood(s: State) {
    var past := |s.loops| == 0 || PastTeardown(s.loops[|s.loops| - 1]);
    && (past ==> s.f.handles.pendingSeek == LastOf(s.sought))
    && (|s.loops| == 0 || (past && !s.loops[|s.loops| - 1].sawSwap) ==>
          s.f.handles.request == None && s.f.handles.pendingSeek == None)
  }

  lemma LoopMovesSeeks(s: State, i: nat, failed: bool)
    requires i < |s.loops| && Telling(s.loops[i])
    ensures var t := DoLoop(s, i, failed); var pc := s.loops[i].pc; var l := t.loops[i];
      && |t.loops| == |s.loops| && t.loops == s.loops[i := l]
      && (PastTeardown(l) <==> PastTeardown(s.loops[i]) || pc == Tearing || pc == Releasing)
      && (if pc == Tearing then t.sought == [] && t.f.handles.pendingSeek == None && l.sawSwap
          else if pc == Releasing then t.sought == [] && t.f.handles == Handles(None, None, false, false, false)
          else t.sought == s.sought && t.f.handles == s.f.handles && (pc != Stopping ==>
            l.sawSwap == s.loops[i].sawSwap))
  {
  }

  lemma LoopKeepsSeeks(s: State, i: nat, failed: bool)
    requires SeekGood(s) && i < |s.loops| && Telling(s.loops[i]) && (Live(s.loops[i]) ==> i == |s.loops| - 1)
    ensures SeekGood(DoLoop(s, i, failed))
  {
    hide DoLoop, Telling;
    LoopMovesSeeks(s, i, failed);
  }

  lemma SwapLeavesSeeks(s: State, k: nat)
    requires k < |s.swaps|
    ensures var t := DoSwap(s, k); t.loops == s.loops && t.sought == s.sought && t.f.handles == s.f.handles
  {
  }

  lemma TakeIsLive(s: State)
    requires Good(s) && Streams(s)
    ensures |s.loops| > 0 && s.loops[|s.loops| - 1].pc == Streaming
  {
    var i :| 0 <= i < |s.loops| && s.loops[i].pc == Streaming;
    assert LoopGood(s, i);
  }

  lemma PlayKeepsSeeks(s: State, request: Request)
    requires SeekGood(s)
    ensures SeekGood(Do(s, Play(request)))
  {
  }

  lemma SeekGoodStep(s: State, step: Step)
    requires Good(s) && SeekGood(s)
    ensures SeekGood(Do(s, step))
  {
    hide Good, DoLoop, DoSwap, Streams;
    match step
    case LoopStep(i, failed) =>
      if i < |s.loops| {
        GoodLoop(s, i);
        LoopKeepsSeeks(s, i, failed);
      }
    case SwapStep(k) => if k < |s.swaps| { SwapLeavesSeeks(s, k); }
    case Play(request) => PlayKeepsSeeks(s, request);
    case Take => if Streams(s) { TakeIsLive(s); }
    case Note(_) => if Streams(s) { TakeIsLive(s); }
    case _ =>
  }

  lemma GoodLoop(s: State, i: nat)
    requires Good(s) && i < |s.loops|
    ensures Telling(s.loops[i]) && (Live(s.loops[i]) ==> i == |s.loops| - 1)
  {
    assert LoopGood(s, i);
  }

  lemma {:induction false} AlwaysSeekGood(s: State, steps: seq<Step>)
    requires Initial(s) && InTurns(s, steps)
    ensures SeekGood(Run(s, steps))
  {
    hide Do, TakesTurns, Good;
    if |steps| > 0 {
      var before := steps[..|steps| - 1];
      assert forall n :: 0 <= n < |before| ==> before[..n] == steps[..n];
      AlwaysSeekGood(s, before);
      AlwaysGood(s, before);
      SeekGoodStep(Run(s, before), steps[|steps| - 1]);
    }
  }

  // ---------------------------------------------------------------- what callers may rely on

  ghost predicate HandedOver(t: State, k: nat) {
    && k < |t.swaps| && t.swaps[k].Returned? && t.swaps[k].done.Some?
    && |t.loops| > 0 && t.swaps[k].done.value == |t.loops| - 1 && t.swaps[k].done.value in t.closed
    && Exclusive(t)
    && t.f.busy && !t.f.swapping && !t.f.stopRequested && t.f.controller == None && t.f.stream == Blank()
    && (t.loops[|t.loops| - 1].sawSwap ==> t.loops[|t.loops| - 1].told == [Swapped])
  }

  lemma GoodHandsOver(e: State, k: nat)
    requires Good(e) && k < |e.swaps| && e.swaps[k].Rearming?
    ensures HandedOver(Do(e, SwapStep(k)), k)
  {
    assert SwapGood(e, k);
    forall i | 0 <= i < |e.loops| ensures !Live(e.loops[i]) {
      assert LoopGood(e, i);
    }
    assert LoopGood(e, |e.loops| - 1);
  }

  /**
    When callers take turns and a swap that waited hands over the session: every grant has ended, the channel it
    waited for is closed, the session is busy and held by this caller alone, the flag is down, controller and
    per-stream fields are gone, and if the old loop saw the flag its OnClose has already been told so.
   */
  lemma SwapHandsOver(s: State, steps: seq<Step>, k: nat)
    requires Initial(s) && InTurns(s, steps)
    requires k < |Run(s, steps).swaps| && Run(s, steps).swaps[k].Rearming?
    ensures HandedOver(Do(Run(s, steps), SwapStep(k)), k) && GrantCount(s, steps) == EndCount(s, steps)
  {
    hide Run, Do, Good, GrantCount, EndCount, Exclusive;
    AlwaysGood(s, steps);
    GoodHandsOver(Run(s, steps), k);
    HandOverIsExclusiveIff(s, steps, k);
  }

  lemma GoodLeavesSeek(e: State, k: nat)
    requires Good(e) && SeekGood(e) && k < |e.swaps| && e.swaps[k].Rearming?
    ensures |e.loops| > 0 && e.f.handles.pendingSeek == LastOf(e.sought)
    ensures !e.loops[|e.loops| - 1].sawSwap ==> e.f.handles.pendingSeek == None
  {
    assert SwapGood(e, k);
    assert LoopGood(e, |e.loops| - 1);
  }

  /**
    What the hand-over leaves of the old stream is a seek that was accepted since the teardown: there is none if
    and only if none was accepted, and none can be where the old loop released the session.
   */
  lemma HandOverLeavesSeek(s: State, steps: seq<Step>, k: nat)
    requires Initial(s) && InTurns(s, steps)
    requires k < |Run(s, steps).swaps| && Run(s, steps).swaps[k].Rearming?
    ensures var e := Run(s, steps); var t := Do(e, SwapStep(k));
      && t.f.handles.pendingSeek == LastOf(e.sought)
      && (t.f.handles.pendingSeek == None <==> e.sought == [])
      && |e.loops| > 0 && (!e.loops[|e.loops| - 1].sawSwap ==> t.f.handles.pendingSeek == None)
  {
    hide Run, Good, SeekGood;
    AlwaysGood(s, steps);
    AlwaysSeekGood(s, steps);
    GoodLeavesSeek(Run(s, steps), k);
  }

  /**
    When callers take turns at most one loop is live, a live loop means a busy session, and no channel closes
    twice.
   */
  lemma OneLoopLives(s: State, steps: seq<Step>, i: nat, j: nat)
    requires Initial(s) && InTurns(s, steps)
    requires i < |Run(s, steps).loops| && j < |Run(s, steps).loops|
    ensures var e := Run(s, steps);
      (Live(e.loops[i]) && Live(e.loops[j]) ==> i == j) && (Live(e.loops[i]) ==> e.f.busy) && !e.closedTwice
  {
    hide Run;
    AlwaysGood(s, steps);
    assert LoopGood(Run(s, steps), i) && LoopGood(Run(s, steps), j);
  }

  ghost predicate AllTelling(s: State) {
    forall i :: 0 <= i < |s.loops| ==> Telling(s.loops[i])
  }

  lemma TellingStep(s: State, step: Step)
    requires AllTelling(s)
    ensures AllTelling(Do(s, step))
  {
    hide Telling, DoLoop;
    match step
    case LoopStep(i, failed) =>
      if i < |s.loops| {
        LoopMovesClaims(s, i, failed);
        LoopKeepsTelling(s, i, failed);
      }
    case Play(_) => JustLaunchedTells();
    case _ => assert Do(s, step).loops == s.loops;
  }

  lemma JustLaunchedTells()
    ensures Telling(Loop(Launched, None, Ended, false, []))
  {
  }

  lemma {:induction false} AlwaysTelling(s: State, steps: seq<Step>)
    requires Initial(s)
    ensures AllTelling(Run(s, steps))
  {
    hide Do, Telling;
    if |steps| > 0 {
      AlwaysTelling(s, steps[..|steps| - 1]);
      TellingStep(Run(s, steps[..|steps| - 1]), steps[|steps| - 1]);
    }
  }

  /**
    In every run, turns or not, each loop calls OnClose once: with `Swapped` if it saw the flag, with another
    reason if it did not.
   */
  lemma OnCloseOnce(s: State, steps: seq<Step>, i: nat)
    requires Initial(s) && i < |Run(s, steps).loops|
    ensures var l := Run(s, steps).loops[i];
      && |l.told| <= 1 && (l.pc == Gone ==> |l.told| == 1)
      && (l.told != [] ==> (l.told[0] == Swapped <==> l.sawSwap))
  {
    hide Run;
    AlwaysTelling(s, steps);
    assert Telling(Run(s, steps).loops[i]);
  }

  lemma {:induction false} RunBoth(s: State, a: seq<Step>, b: seq<Step>)
    ensures Run(s, a + b) == Run(Run(s, a), b)
  {
    hide Do;
    if |b| == 0 {
      assert a + b == a;
    } else {
      RunBoth(s, a, b[..|b| - 1]);
      assert (a + b)[..|a + b| - 1] == a + b[..|b| - 1];
    }
  }

  /** The loop's stream has returned, for this reason. */
  predicate ReturnedFor(s: State, i: nat, reason: Reason) {
    && i < |s.loops| && s.loops[i].reason == reason
    && !s.loops[i].pc.Launched? && !s.loops[i].pc.Starting? && !s.loops[i].pc.Streaming?
  }

  lemma ReturnedStep(s: State, step: Step, i: nat, reason: Reason)
    requires ReturnedFor(s, i, reason)
    ensures ReturnedFor(Do(s, step), i, reason)
  {
    hide DoLoop;
    match step
    case LoopStep(k, failed) =>
      if k < |s.loops| {
        LoopMovesClaims(s, k, failed);
        StaysReturned(s, k, failed);
      }
    case _ =>
  }

  lemma StaysReturned(s: State, k: nat, failed: bool)
    requires k < |s.loops|
    ensures var l, m := s.loops[k], DoLoop(s, k, failed).loops[k];
      !l.pc.Launched? && !l.pc.Starting? && !l.pc.Streaming? ==>
        m.reason == l.reason && !m.pc.Launched? && !m.pc.Starting? && !m.pc.Streaming?
  {
  }

  lemma {:induction false} ReturnedRun(s: State, steps: seq<Step>, i: nat, reason: Reason)
    requires ReturnedFor(s, i, reason)
    ensures ReturnedFor(Run(s, steps), i, reason)
  {
    hide Do, ReturnedFor;
    if |steps| > 0 {
      ReturnedRun(s, steps[..|steps| - 1], i, reason);
      ReturnedStep(Run(s, steps[..|steps| - 1]), steps[|steps| - 1], i, reason);
    }
  }

  /**
    In every run, what OnClose is told is what was so when the stream returned: stopped if a stop had been asked
    for, else failed or ended; and swapped instead of any of these if the loop saw the flag.
   */
  lemma OnCloseReason(s: State, before: seq<Step>, i: nat, failed: bool, after: seq<Step>)
    requires Initial(s) && i < |Run(s, before).loops| && Run(s, before).loops[i].pc == Streaming
    ensures var e := Run(s, before); var x := Run(s, before + [LoopStep(i, failed)] + after);
      && i < |x.loops|
      && (x.loops[i].told != [] ==>
            x.loops[i].told ==
              [if x.loops[i].sawSwap then Swapped else if e.f.stopRequested then Stopped
               else if failed then Failed else Ended])
  {
    hide Run;
    var e := Run(s, before);
    var all := before + [LoopStep(i, failed)];
    One(s, before, LoopStep(i, failed));
    var reason := if e.f.stopRequested then Stopped else if failed then Failed else Ended;
    assert ReturnedFor(Run(s, all), i, reason);
    RunBoth(s, all, after);
    ReturnedRun(Run(s, all), after, i, reason);
    AlwaysTelling(s, all + after);
    assert Telling(Run(s, all + after).loops[i]);
  }

  /** When callers take turns, a loop that saw the flag tells before its channel closes, any other one after. */
  lemma OnCloseAndChannel(s: State, steps: seq<Step>, i: nat)
    requires Initial(s) && InTurns(s, steps) && i < |Run(s, steps).loops|
    ensures var e := Run(s, steps); var l := e.loops[i];
      if l.sawSwap then i in e.closed ==> l.told == [Swapped] else l.told != [] ==> i in e.closed
  {
    hide Run;
    AlwaysGood(s, steps);
    assert LoopGood(Run(s, steps), i);
  }

  /**
    What a swap cancels is the loop it waits for, if that loop has installed its controller and not yet dropped
    it. A loop that has only just been launched is missed: the swap then waits for the stream's own end.
   */
  lemma SwapCancels(s: State, steps: seq<Step>, k: nat)
    requires Initial(s) && InTurns(s, steps)
    requires k < |Run(s, steps).swaps| && Run(s, steps).swaps[k].Cancelling?
    ensures var e := Run(s, steps); var done := e.swaps[k].done;
      && done.Some? && done.value < |e.loops|
      && Do(e, SwapStep(k)).cancelled == e.cancelled + if Reachable(e.loops[done.value]) then {done.value} else {}
  {
    hide Run;
    AlwaysGood(s, steps);
    assert SwapGood(Run(s, steps), k);
  }

  /** Whenever a swap waits, a loop that is not yet past closing it owns the channel: the wait is never for nobody. */
  lemma SomebodyWillClose(s: State, steps: seq<Step>, k: nat)
    requires Initial(s) && InTurns(s, steps)
    requires k < |Run(s, steps).swaps| && Run(s, steps).swaps[k].Waiting?
    ensures var e := Run(s, steps); var done := e.swaps[k].done;
      && done.Some? && done.value < |e.loops|
      && (done.value !in e.closed <==> !PastClose(e.loops[done.value]))
      && (!e.loops[done.value].pc.Launched? ==> e.loops[done.value].channel == done)
  {
    hide Run;
    AlwaysGood(s, steps);
    var e := Run(s, steps);
    assert SwapGood(e, k);
    assert LoopGood(e, |e.loops| - 1);
  }

  // ---------------------------------------------------------------- why callers must take turns

  const PLAY := Play(Request(false, false))

  ghost predicate TwoLive(s: State) {
    exists i, j :: 0 <= i < j < |s.loops| && Live(s.loops[i]) && Live(s.loops[j])
  }

  lemma One(s: State, steps: seq<Step>, step: Step)
    ensures Run(s, steps + [step]) == Do(Run(s, steps), step)
  {
    hide Do;
    assert (steps + [step])[..|steps|] == steps;
  }

  lemma Three(s: State, steps: seq<Step>, a: Step, b: Step, c: Step)
    ensures Run(s, steps + [a, b, c]) == Do(Do(Do(Run(s, steps), a), b), c)
  {
    hide Run, Do;
    One(s, steps, a);
    One(s, steps + [a], b);
    One(s, steps + [a, b], c);
    assert steps + [a] + [b] == steps + [a, b] && steps + [a, b] + [c] == steps + [a, b, c];
  }

  lemma Start(s: State)
    ensures Run(s, []) == s
  {
  }

  /** A swap of a session that is acquired and not yet playing gives it to two callers. */
  lemma SwapBeforePlay(s: State)
    requires Initial(s)
    ensures TwoLive(Run(s, [Acquire, SwapCall, SwapStep(0)] + [SwapStep(0), SwapStep(0), PLAY] + [PLAY]))
  {
    hide Run;
    var r1, r2 := [Acquire, SwapCall, SwapStep(0)], [SwapStep(0), SwapStep(0), PLAY];
    Start(s);
    Three(s, [], Acquire, SwapCall, SwapStep(0));
    assert [] + r1 == r1;
    var t := Run(s, r1);
    assert t.swaps == [Waiting(None)] && t.holders == 1 && t.loops == [];
    Three(s, r1, SwapStep(0), SwapStep(0), PLAY);
    One(s, r1 + r2, PLAY);
    var e := Run(s, r1 + r2 + [PLAY]);
    assert Live(e.loops[0]) && Live(e.loops[1]);
  }

  const LAUNCH := [Acquire, PLAY, LoopStep(0, false)]
  const TURN := [LoopStep(0, false), LoopStep(0, false), LoopStep(0, false)]
  const FREE := [LoopStep(0, false), SwapCall, LoopStep(0, false)]
  const SLIP_IN := [Acquire, PLAY, LoopStep(0, false)]

  function SwapTurn(k: nat): seq<Step> {
    [SwapStep(k), SwapStep(k), SwapStep(k)]
  }

  /** One loop, at `pc`. */
  predicate At(s: State, pc: Pc) {
    |s.loops| == 1 && s.loops[0].pc == pc && s.loops[0].channel == Some(0) && s.holders == 0 && s.closed == {}
  }

  predicate Playing(s: State) {
    At(s, Starting) && s.f.busy && !s.f.swapping && s.f.loopDone == Some(0) && s.swaps == []
  }

  predicate HalfFreed(s: State) {
    At(s, CloseEnded) && !s.f.busy && s.swaps == [Cancelling(Some(0))]
  }

  /** Loop 0 has closed its channel and swap `k` still waits for it. */
  predicate Overtaken(s: State, loops: nat, k: nat) {
    |s.loops| == loops && s.closed == {0} && s.holders == 0 && k < |s.swaps| && s.swaps[k] == Cancelling(Some(0))
  }

  lemma AfterLaunch(s: State)
    requires Initial(s)
    ensures Playing(Run(s, LAUNCH)) && Seekable(Run(s, LAUNCH).f)
  {
    hide Run;
    Start(s);
    Three(s, [], Acquire, PLAY, LoopStep(0, false));
    assert [] + LAUNCH == LAUNCH;
  }

  lemma HalfFreedAfter(s: State)
    requires Playing(s)
    ensures var l := LoopStep(0, false); HalfFreed(Do(Do(Do(Do(Do(Do(s, l), l), l), l), SwapCall), l))
  {
    var l := LoopStep(0, false);
    var t := Do(Do(Do(s, l), l), l);
    assert At(t, Releasing) && t.f.busy && !t.f.swapping && t.f.loopDone == Some(0) && t.swaps == [];
  }

  lemma SlippedIn(s: State)
    requires HalfFreed(s)
    ensures var t := Do(Do(Do(s, Acquire), PLAY), LoopStep(0, false));
      Overtaken(t, 2, 0) && Live(t.loops[1])
  {
  }

  /** A swap whose channel is closed hands over, whoever plays by then. */
  lemma HandsOver(s: State, loops: nat, k: nat)
    requires Overtaken(s, loops, k)
    ensures var t := Do(Do(Do(s, SwapStep(k)), SwapStep(k)), SwapStep(k));
      && t.holders == 1 && t.loops == s.loops && t.closed == s.closed && |t.swaps| == |s.swaps|
      && forall j :: 0 <= j < |s.swaps| && j != k ==> t.swaps[j] == s.swaps[j]
  {
  }

  lemma Plays(s: State)
    requires s.holders == 1
    ensures var t := Do(s, PLAY);
      && t.holders == 0 && t.closed == s.closed && t.swaps == s.swaps
      && |t.loops| == |s.loops| + 1 && t.loops[..|s.loops|] == s.loops && Live(t.loops[|s.loops|])
  {
  }

  /** An acquisition that slips in after the old loop frees the session and before it closes its channel. */
  lemma AcquireDuringSwap(s: State)
    requires Initial(s)
    ensures TwoLive(Run(s, LAUNCH + TURN + FREE + SLIP_IN + SwapTurn(0) + [PLAY]))
  {
    hide Run, Do, Playing, HalfFreed, Live, Initial;
    var l := LoopStep(0, false);
    var r1 := LAUNCH;
    AfterLaunch(s);
    Three(s, r1, l, l, l);
    var r2 := r1 + TURN;
    Three(s, r2, l, SwapCall, l);
    HalfFreedAfter(Run(s, r1));
    var r3 := r2 + FREE;
    Three(s, r3, Acquire, PLAY, l);
    SlippedIn(Run(s, r3));
    var r4 := r3 + SLIP_IN;
    Three(s, r4, SwapStep(0), SwapStep(0), SwapStep(0));
    HandsOver(Run(s, r4), 2, 0);
    var r5 := r4 + SwapTurn(0);
    One(s, r5, PLAY);
    Plays(Run(s, r5));
    var e := Run(s, r5 + [PLAY]);
    assert e.loops[1] == Run(s, r5).loops[1];
    assert Live(e.loops[1]) && Live(e.loops[2]);
  }

  const SWAP_TWICE := [LoopStep(0, false), SwapCall, SwapCall]

  predicate BothWait(s: State, pc: Pc) {
    At(s, pc) && s.f.busy && s.f.swapping && s.swaps == [Cancelling(Some(0)), Cancelling(Some(0))]
  }

  lemma BothWaitAfter(s: State)
    requires Playing(s)
    ensures BothWait(Do(Do(Do(s, LoopStep(0, false)), SwapCall), SwapCall), Streaming)
  {
  }

  lemma ClosedForBoth(s: State)
    requires BothWait(s, Streaming)
    ensures var l := LoopStep(0, false);
      var t := Do(Do(Do(Do(Do(Do(s, l), l), l), l), l), l);
      Overtaken(t, 1, 0) && Overtaken(t, 1, 1) && |t.swaps| == 2
  {
    var l := LoopStep(0, false);
    var t := Do(Do(Do(s, l), l), l);
    assert BothWait(t, TellSwapped);
  }

  /** Two swaps that wait for the same loop both receive the session. */
  lemma SwapsOverlap(s: State)
    requires Initial(s)
    ensures TwoLive(Run(s, LAUNCH + SWAP_TWICE + TURN + TURN + SwapTurn(0) + [PLAY] + SwapTurn(1) + [PLAY]))
  {
    hide Run, Do, Playing, BothWait, Live, Initial;
    var l := LoopStep(0, false);
    var r1 := LAUNCH;
    AfterLaunch(s);
    Three(s, r1, l, SwapCall, SwapCall);
    BothWaitAfter(Run(s, r1));
    var r2 := r1 + SWAP_TWICE;
    Three(s, r2, l, l, l);
    var r3 := r2 + TURN;
    Three(s, r3, l, l, l);
    ClosedForBoth(Run(s, r2));
    var r4 := r3 + TURN;
    Three(s, r4, SwapStep(0), SwapStep(0), SwapStep(0));
    HandsOver(Run(s, r4), 1, 0);
    var r5 := r4 + SwapTurn(0);
    One(s, r5, PLAY);
    Plays(Run(s, r5));
    var r6 := r5 + [PLAY];
    Three(s, r6, SwapStep(1), SwapStep(1), SwapStep(1));
    HandsOver(Run(s, r6), 2, 1);
    var r7 := r6 + SwapTurn(1);
    One(s, r7, PLAY);
    Plays(Run(s, r7));
    var e := Run(s, r7 + [PLAY]);
    assert e.loops[1] == Run(s, r7).loops[1];
    assert Live(e.loops[1]) && Live(e.loops[2]);
  }

  // ---------------------------------------------------------------- what a swap can miss or leave behind

  /** A swap that comes right after the launch cancels nothing: the loop goes on to stream. */
  lemma LaunchedLoopIsMissed(s: State)
    requires Initial(s)
    ensures var e := Run(s, [Acquire, PLAY, SwapCall] + [SwapStep(0), LoopStep(0, false), LoopStep(0, false)]);
      |e.loops| == 1 && e.loops[0].pc == Streaming && e.swaps == [Waiting(Some(0))] && e.cancelled == {}
  {
    hide Run;
    var r := [Acquire, PLAY, SwapCall];
    Start(s);
    Three(s, [], Acquire, PLAY, SwapCall);
    assert [] + r == r;
    var t := Run(s, r);
    assert At(t, Launched) || (|t.loops| == 1 && t.loops[0].pc == Launched && t.swaps == [Cancelling(Some(0))]);
    assert t.f.controller == None && t.cancelled == {} && t.f.loopDone == Some(0);
    Three(s, r, SwapStep(0), LoopStep(0, false), LoopStep(0, false));
  }

  const SWAP_EARLY := [LoopStep(0, false), SwapCall, LoopStep(0, false)]
  const TEAR_AND_SEEK := [LoopStep(0, false), LoopStep(0, false), Seek(5)]
  const CLOSE_AND_WAIT := [LoopStep(0, false), LoopStep(0, false), SwapStep(0)]
  const TAKE_OVER := [SwapStep(0), SwapStep(0), PLAY]

  /** The old loop is being swapped out and a seek has been accepted after its teardown. */
  predicate SoughtLate(s: State, pc: Pc) {
    && At(s, pc) && s.f.busy && s.f.swapping && s.swaps == [Cancelling(Some(0))]
    && s.f.handles.pendingSeek == Some(5)
  }

  lemma SoughtLateAfter(s: State)
    requires Playing(s) && Seekable(s.f)
    ensures var l := LoopStep(0, false); SoughtLate(Do(Do(Do(Do(Do(Do(s, l), SwapCall), l), l), l), Seek(5)),
      TellSwapped)
  {
    var l := LoopStep(0, false);
    var t := Do(Do(Do(s, l), SwapCall), l);
    assert At(t, Stopping) && t.f.busy && t.f.swapping && t.swaps == [Cancelling(Some(0))] && Seekable(t.f);
    var u := Do(Do(t, l), l);
    assert At(u, CloseSwapped) || At(u, TellSwapped);
  }

  /** The stream that is swapped in starts with the seek that was meant for the stream it replaces. */
  lemma SeekSurvivesSwap(s: State)
    requires Initial(s)
    ensures var e := Run(s, LAUNCH + SWAP_EARLY + TEAR_AND_SEEK + CLOSE_AND_WAIT + TAKE_OVER);
      |e.loops| == 2 && e.loops[1].pc == Launched && e.f.handles.pendingSeek == Some(5)
  {
    hide Run, Do, Playing, SoughtLate, Initial, Seekable;
    var l := LoopStep(0, false);
    var r1 := LAUNCH;
    AfterLaunch(s);
    Three(s, r1, l, SwapCall, l);
    var r2 := r1 + SWAP_EARLY;
    Three(s, r2, l, l, Seek(5));
    SoughtLateAfter(Run(s, r1));
    var r3 := r2 + TEAR_AND_SEEK;
    Three(s, r3, l, l, SwapStep(0));
    var r4 := r3 + CLOSE_AND_WAIT;
    Three(s, r4, SwapStep(0), SwapStep(0), PLAY);
    TakesOver(Run(s, r3));
  }

  lemma TakesOver(s: State)
    requires SoughtLate(s, TellSwapped)
    ensures var l := LoopStep(0, false); var w := SwapStep(0);
      var e := Do(Do(Do(Do(Do(Do(s, l), l), w), w), w), PLAY);
      |e.loops| == 2 && e.loops[1].pc == Launched && e.f.handles.pendingSeek == Some(5)
  {
    var l := LoopStep(0, false);
    var w := SwapStep(0);
    var t := Do(Do(Do(s, l), l), w);
    assert |t.loops| == 1 && t.closed == {0} && t.swaps == [Waiting(Some(0))] && t.f.handles.pendingSeek == Some(5);
  }
}
