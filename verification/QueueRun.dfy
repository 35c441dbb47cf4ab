/**
  Demultiplexing (internal/transcode/transcode_c.c:1139-1182, 1514-1548 and 1737-1850): one thread reads packets
  and routes them into two bounded queues, the other empties the queues and decides when a stream is over. Each
  step is one locked section of either thread.
 */
module QueueRun {
  import opened Queue

  const AUDIO_BATCH := 3

  /** A queue, what the worker has taken out of it, and whether the worker holds the stream to be over. */
  datatype Side = Side(line: Line, taken: seq<Packet>, over: bool)

  function Added(q: Side, p: Packet): Side {
    q.(line := Appended(q.line, p))
  }

  function Taken(q: Side): Side
    requires |q.line.packets| > 0
  {
    q.(line := Rest(q.line), taken := q.taken + [q.line.packets[0]])
  }

  function Finished(q: Side): Side {
    q.(line := Closed(q.line))
  }

  function Asked(q: Side): Side {
    q.(over := Exhausted(q.line))
  }

  datatype ReaderPc = Reading | Pushing(pkt: Packet, video: bool) | EndingVideo | EndingAudio | ReaderGone

  datatype WorkerPc =
    | Top | PopVideo | AskVideo | PopAudio(i: nat) | AskAudio
    | QuitVideo | QuitAudio | WorkerGone

  /** `audio` is negative without audio. */
  datatype Streams = Streams(video: int, audio: int)

  /** `got` is what the demuxer has delivered, `dropped` what a push refused, `cut` that reading ended early. */
  datatype ReaderState = ReaderState(pc: ReaderPc, rest: seq<Packet>, got: seq<Packet>, dropped: seq<Packet>, cut: bool)

  datatype State = State(streams: Streams, video: Side, audio: Side, reader: ReaderState, worker: WorkerPc,
    quitEarly: bool)

  /** `fault` is what the code leaves open: the abort flag, a read error, an error in processing a packet. */
  datatype Step = Reader(fault: bool) | Worker(fault: bool)

  predicate ForVideo(k: Streams, p: Packet) {
    p.stream == k.video
  }

  predicate ForAudio(k: Streams, p: Packet) {
    p.stream != k.video && k.audio >= 0 && p.stream == k.audio
  }

  /** The reader reads one packet, or finds that there is none. */
  function Read(r: ReaderState, k: Streams, fault: bool): ReaderState {
    if fault then r.(pc := EndingVideo, cut := true)
    else if |r.rest| == 0 then r.(pc := EndingVideo)
    else
      var p := r.rest[0];
      var pc := if ForVideo(k, p) then Pushing(p, true) else if ForAudio(k, p) then Pushing(p, false) else Reading;
      r.(rest := r.rest[1..], got := r.got + [p], pc := pc)
  }

  function DoReader(s: State, fault: bool): State {
    match s.reader.pc
    case Reading => s.(reader := Read(s.reader, s.streams, fault))
    case Pushing(p, video) =>
      var result := PushMeets((if video then s.video else s.audio).line, !fault);
      if result == MustWait then s
      else if result != Pushed then
        s.(reader := s.reader.(pc := EndingVideo, dropped := s.reader.dropped + [p], cut := true))
      else if video then s.(reader := s.reader.(pc := Reading), video := Added(s.video, p))
      else s.(reader := s.reader.(pc := Reading), audio := Added(s.audio, p))
    case EndingVideo => s.(reader := s.reader.(pc := EndingAudio), video := Finished(s.video))
    case EndingAudio =>
      s.(reader := s.reader.(pc := ReaderGone), audio := if s.streams.audio >= 0 then Finished(s.audio) else s.audio)
    case ReaderGone => s
  }

  function AfterVideo(s: State): WorkerPc {
    if s.streams.audio >= 0 && !s.audio.over then PopAudio(0) else Top
  }

  function DoWorker(s: State, fault: bool): State {
    match s.worker
    case Top =>
      if s.video.over && s.audio.over then s.(worker := QuitVideo)
      else if fault then s.(worker := QuitVideo, quitEarly := true)
      else s.(worker := if s.video.over then AfterVideo(s) else PopVideo)
    case PopVideo =>
      if |s.video.line.packets| == 0 then s.(worker := AskVideo)
      else if fault then s.(video := Taken(s.video), worker := QuitVideo, quitEarly := true)
      else s.(video := Taken(s.video), worker := AfterVideo(s))
    case AskVideo => s.(video := Asked(s.video), worker := AfterVideo(s))
    case PopAudio(i) =>
      if |s.audio.line.packets| == 0 then s.(worker := AskAudio)
      else if fault then s.(audio := Taken(s.audio), worker := QuitVideo, quitEarly := true)
      else s.(audio := Taken(s.audio), worker := if i + 1 < AUDIO_BATCH then PopAudio(i + 1) else Top)
    case AskAudio => s.(audio := Asked(s.audio), worker := Top)
    case QuitVideo => s.(worker := QuitAudio, video := Finished(s.video))
    case QuitAudio => s.(worker := WorkerGone, audio := Finished(s.audio))
    case WorkerGone => s
  }

  function Do(s: State, step: Step): State {
    match step
    case Reader(fault) => DoReader(s, fault)
    case Worker(fault) => DoWorker(s, fault)
  }

  function Run(s: State, steps: seq<Step>): State {
    if |steps| == 0 then s else Do(Run(s, steps[..|steps| - 1]), steps[|steps| - 1])
  }

  ghost predicate Initial(s: State, input: seq<Packet>) {
    && s.reader == ReaderState(Reading, input, [], [], false)
    && s.worker == Top && !s.quitEarly
    && s.video.line.cap > 0 && s.video == Side(Line([], s.video.line.cap, false), [], false)
    && s.audio.line.cap > 0 && s.audio == Side(Line([], s.audio.line.cap, false), [], s.streams.audio < 0)
  }

  // ---------------------------------------------------------------- what every run keeps

  /** The packets of one kind, in order. */
  function Routed(k: Streams, packets: seq<Packet>, video: bool): (r: seq<Packet>) {
    if |packets| == 0 then []
    else
      var p := packets[|packets| - 1];
      var before := Routed(k, packets[..|packets| - 1], video);
      if if video then ForVideo(k, p) else ForAudio(k, p) then before + [p] else before
  }

  /** What has been read and is neither queued nor taken: the packet in the reader's hand, or the one it lost. */
  function Unpushed(r: ReaderState): seq<Packet> {
    if r.pc.Pushing? then [r.pc.pkt] else r.dropped
  }

  /** Taken and queued. */
  function Flow(q: Side): seq<Packet> {
    q.taken + q.line.packets
  }

  /** Taken, queued and not yet pushed, of one kind, are exactly the packets read of that kind, in order. */
  ghost predicate Conserved(s: State, video: bool) {
    Flow(if video then s.video else s.audio) + Routed(s.streams, Unpushed(s.reader), video)
      == Routed(s.streams, s.reader.got, video)
  }

  predicate ReaderDone(r: ReaderState) {
    r.pc.EndingVideo? || r.pc.EndingAudio? || r.pc.ReaderGone?
  }

  predicate Quitting(pc: WorkerPc) {
    pc.QuitVideo? || pc.QuitAudio? || pc.WorkerGone?
  }

  ghost predicate ReaderGood(r: ReaderState, k: Streams, input: seq<Packet>) {
    && r.got + r.rest == input
    && (r.pc.Pushing? ==> if r.pc.video then ForVideo(k, r.pc.pkt) else ForAudio(k, r.pc.pkt))
    && (r.cut ==> ReaderDone(r))
    && (!ReaderDone(r) ==> r.dropped == [])
    && (!r.cut ==> r.dropped == []) && |r.dropped| <= 1
    && (ReaderDone(r) && !r.cut ==> r.rest == [])
  }

  ghost predicate SideGood(q: Side) {
    |q.line.packets| <= q.line.cap && q.line.cap > 0
  }

  ghost predicate Control(s: State) {
    && (s.video.line.done ==>
          s.reader.pc.EndingAudio? || s.reader.pc.ReaderGone? || s.worker.QuitAudio? || s.worker.WorkerGone?)
    && (s.audio.line.done ==> s.reader.pc.ReaderGone? || s.worker.WorkerGone?)
    && (s.reader.pc.EndingAudio? || s.reader.pc.ReaderGone? || s.worker.QuitAudio? || s.worker.WorkerGone? ==>
         s.video.line.done)
    && ((s.reader.pc.ReaderGone? && s.streams.audio >= 0) || s.worker.WorkerGone? ==> s.audio.line.done)
    && (s.video.over ==> Exhausted(s.video.line) && (s.reader.pc.EndingAudio? || s.reader.pc.ReaderGone?))
    && (s.audio.over && s.streams.audio >= 0 ==> Exhausted(s.audio.line) && s.reader.pc.ReaderGone?)
    && (s.streams.audio < 0 ==> s.audio.over && s.audio.line.packets == [])
    && (s.worker.PopVideo? || s.worker.AskVideo? ==> !s.video.over)
    && (s.worker.PopAudio? || s.worker.AskAudio? ==> !s.audio.over)
    && (s.worker.PopAudio? ==> s.worker.i < 3)
    && (Quitting(s.worker) && !s.quitEarly ==> s.video.over && s.audio.over)
    && (s.quitEarly ==> Quitting(s.worker))
  }

  ghost predicate Good(s: State, input: seq<Packet>) {
    && ReaderGood(s.reader, s.streams, input) && SideGood(s.video) && SideGood(s.audio)
    && Conserved(s, true) && Conserved(s, false) && Control(s)
  }

  lemma RoutedMore(k: Streams, packets: seq<Packet>, p: Packet, video: bool)
    ensures Routed(k, packets + [p], video) ==
      if if video then ForVideo(k, p) else ForAudio(k, p) then Routed(k, packets, video) + [p]
        else Routed(k, packets, video)
  {
    assert (packets + [p])[..|packets|] == packets;
  }

  /** What routing is: by the stream a packet belongs to, video first, and audio only where there is any. */
  lemma RoutedIs(k: Streams, packets: seq<Packet>, p: Packet)
    ensures Routed(k, [], true) == Routed(k, [], false) == []
    ensures Routed(k, packets + [p], true) ==
      if p.stream == k.video then Routed(k, packets, true) + [p] else Routed(k, packets, true)
    ensures Routed(k, packets + [p], false) ==
      if p.stream != k.video && k.audio >= 0 && p.stream == k.audio then Routed(k, packets, false) + [p]
      else Routed(k, packets, false)
  {
    RoutedMore(k, packets, p, true);
    RoutedMore(k, packets, p, false);
  }

  lemma RoutedOne(k: Streams, p: Packet, video: bool)
    ensures Routed(k, [], video) == []
    ensures Routed(k, [p], video) == if if video then ForVideo(k, p) else ForAudio(k, p) then [p] else []
  {
    RoutedMore(k, [], p, video);
    assert [] + [p] == [p];
  }

  lemma TakenFlows(q: Side)
    requires |q.line.packets| > 0
    ensures Flow(Taken(q)) == Flow(q)
  {
  }

  lemma ReaderStep(s: State, fault: bool, input: seq<Packet>)
    requires ReaderGood(s.reader, s.streams, input) && SideGood(s.video) && SideGood(s.audio) && Control(s)
    ensures var t := DoReader(s, fault);
      ReaderGood(t.reader, t.streams, input) && SideGood(t.video) && SideGood(t.audio)
  {
    hide Control, Quitting;
  }

  lemma ReaderControl(s: State, fault: bool, input: seq<Packet>)
    requires ReaderGood(s.reader, s.streams, input) && SideGood(s.video) && SideGood(s.audio) && Control(s)
    ensures Control(DoReader(s, fault))
  {
    hide Quitting, ForVideo, SideGood;
  }

  lemma AddedFlows(q: Side, p: Packet)
    ensures Flow(Added(q, p)) == Flow(q) + [p]
  {
  }

  lemma ReaderConserves(s: State, fault: bool, video: bool, input: seq<Packet>)
    requires ReaderGood(s.reader, s.streams, input) && Conserved(s, video)
    ensures Conserved(DoReader(s, fault), video)
  {
    hide Routed, Flow;
    var q := if video then s.video else s.audio;
    FlowOfPackets(q);
    match s.reader.pc
    case Pushing(p, _) =>
      RoutedOne(s.streams, p, video);
      AddedFlows(q, p);
      assert s.reader.dropped == [] && Unpushed(s.reader) == [p] && [] + [p] == [p];
      assert Flow(Added(q, p)) + [] == Flow(Added(q, p)) && Flow(q) + [] == Flow(q);
    case Reading =>
      if !fault && |s.reader.rest| > 0 {
        RoutedOne(s.streams, s.reader.rest[0], video);
        RoutedMore(s.streams, s.reader.got, s.reader.rest[0], video);
        assert Unpushed(s.reader) == [];
      }
    case _ =>
  }

  lemma WorkerSides(s: State, fault: bool)
    requires SideGood(s.video) && SideGood(s.audio)
    ensures var t := DoWorker(s, fault);
      && SideGood(t.video) && SideGood(t.audio) && t.reader == s.reader && t.streams == s.streams
      && Flow(t.video) == Flow(s.video) && Flow(t.audio) == Flow(s.audio)
  {
    hide Flow, AfterVideo;
    if |s.video.line.packets| > 0 { TakenFlows(s.video); }
    if |s.audio.line.packets| > 0 { TakenFlows(s.audio); }
    FlowOfPackets(s.video);
    FlowOfPackets(s.audio);
  }

  lemma FlowOfPackets(q: Side)
    ensures Flow(Asked(q)) == Flow(q) && Flow(Finished(q)) == Flow(q)
  {
  }

  lemma WorkerControl(s: State, fault: bool)
    requires Control(s)
    ensures Control(DoWorker(s, fault))
  {
  }

  lemma GoodStep(s: State, step: Step, input: seq<Packet>)
    requires Good(s, input)
    ensures Good(Do(s, step), input)
  {
    hide Control, ReaderGood, SideGood, Routed, Flow, DoReader, DoWorker;
    match step
    case Reader(fault) =>
      ReaderStep(s, fault, input);
      ReaderControl(s, fault, input);
      ReaderConserves(s, fault, true, input);
      ReaderConserves(s, fault, false, input);
    case Worker(fault) =>
      WorkerSides(s, fault);
      WorkerControl(s, fault);
  }

  lemma {:induction false} AlwaysGood(s: State, steps: seq<Step>, input: seq<Packet>)
    requires Initial(s, input)
    ensures Good(Run(s, steps), input)
  {
    hide Do;
    if |steps| > 0 {
      AlwaysGood(s, steps[..|steps| - 1], input);
      GoodStep(Run(s, steps[..|steps| - 1]), steps[|steps| - 1], input);
    }
  }

  // ---------------------------------------------------------------- main results

  /**
    In every run, with or without faults, what the worker has taken followed by what is queued is a prefix of
    the packets of that kind that were read, short of at most one packet; and no queue grows past its capacity.
   */
  lemma BoundedLosslessFifo(s: State, steps: seq<Step>, input: seq<Packet>, video: bool)
    requires Initial(s, input)
    ensures var e := Run(s, steps); var q := if video then e.video
      else e.audio; var read := Routed(e.streams, e.reader.got, video);
      && |q.line.packets| <= q.line.cap
      && e.reader.got <= input
      && q.taken + q.line.packets <= read && |read| <= |q.taken| + |q.line.packets| + 1
      && (!e.reader.pc.Pushing? && !e.reader.cut ==> q.taken + q.line.packets == read)
  {
    hide Run, Control, Routed;
    AlwaysGood(s, steps, input);
    var e := Run(s, steps);
    assert Conserved(e, video);
    UnpushedIsShort(e.reader, e.streams, input, video);
    assert e.reader.got + e.reader.rest == input;
  }

  lemma UnpushedIsShort(r: ReaderState, k: Streams, input: seq<Packet>, video: bool)
    requires ReaderGood(r, k, input)
    ensures |Routed(k, Unpushed(r), video)| <= 1
    ensures !r.pc.Pushing? && !r.cut ==> Routed(k, Unpushed(r), video) == []
  {
    hide Routed;
    if Unpushed(r) != [] {
      RoutedOne(k, Unpushed(r)[0], video);
      assert Unpushed(r) == [Unpushed(r)[0]];
    } else {
      RoutedOne(k, Packet(0, []), video);
    }
  }

  /**
    When the worker holds a stream to be over, its queue is closed and empty, the reader has stopped pushing to
    it, and the worker has taken every packet of the kind that was read, unless the push itself failed.
   */
  lemma OverMeansNothingLeft(s: State, steps: seq<Step>, input: seq<Packet>, video: bool)
    requires Initial(s, input)
    ensures var e := Run(s, steps); var q := if video then e.video else e.audio;
      q.over && (video || e.streams.audio >= 0) ==>
        q.line.done && q.line.packets == [] && ReaderDone(e.reader)
        && (!e.reader.cut ==> q.taken == Routed(e.streams, input, video))
  {
    hide Run, Routed;
    AlwaysGood(s, steps, input);
    var e := Run(s, steps);
    BoundedLosslessFifo(s, steps, input, video);
    if !e.reader.cut && ReaderDone(e.reader) {
      assert e.reader.got == e.reader.got + e.reader.rest == input;
      var q := if video then e.video else e.audio;
      assert q.taken + [] == q.taken;
    }
  }

  /**
    Video is never kept waiting for long: before the worker looks at a queue of sound it has taken at most two
    packets of it since it last came from video, and after a third it goes back.
   */
  lemma AudioInBatches(s: State, steps: seq<Step>, input: seq<Packet>, fault: bool)
    requires Initial(s, input)
    ensures var e := Run(s, steps);
      e.worker.PopAudio? ==> e.worker.i <= 2 && (e.worker.i == 2 ==> !DoWorker(e, fault).worker.PopAudio?)
  {
    hide Run, Conserved, ForVideo, ForAudio;
    AlwaysGood(s, steps, input);
  }

  /** A run in which nothing goes wrong. */
  predicate Clean(steps: seq<Step>) {
    forall i :: 0 <= i < |steps| ==> !steps[i].fault
  }

  lemma CleanStep(s: State, step: Step, input: seq<Packet>)
    requires Good(s, input) && !s.reader.cut && !s.quitEarly && !step.fault
    ensures !Do(s, step).reader.cut && !Do(s, step).quitEarly
  {
    hide Conserved, ForVideo, ForAudio;
  }

  lemma {:induction false} CleanRun(s: State, steps: seq<Step>, input: seq<Packet>)
    requires Initial(s, input) && Clean(steps)
    ensures !Run(s, steps).reader.cut && !Run(s, steps).quitEarly
  {
    hide Do, Good;
    if |steps| > 0 {
      CleanRun(s, steps[..|steps| - 1], input);
      AlwaysGood(s, steps[..|steps| - 1], input);
      CleanStep(Run(s, steps[..|steps| - 1]), steps[|steps| - 1], input);
    }
  }

  /**
    When the worker of a clean run leaves its loop it has taken, of either kind, exactly the packets of that
    kind in the input, in order, although it looks at a queue and asks for its end in two locked sections.
   */
  lemma CleanRunTakesAll(s: State, steps: seq<Step>, input: seq<Packet>, video: bool)
    requires Initial(s, input) && Clean(steps) && Quitting(Run(s, steps).worker)
    ensures var e := Run(s, steps);
      (if video then e.video else e.audio).taken == Routed(e.streams, input, video)
  {
    hide Run, Routed;
    CleanRun(s, steps, input);
    AlwaysGood(s, steps, input);
    var e := Run(s, steps);
    OverMeansNothingLeft(s, steps, input, video);
    if !video && e.streams.audio < 0 {
      BoundedLosslessFifo(s, steps, input, false);
      NoAudio(e.streams, e.reader.got);
      NoAudio(e.streams, input);
    }
  }

  lemma {:induction false} NoAudio(k: Streams, packets: seq<Packet>)
    requires k.audio < 0
    ensures Routed(k, packets, false) == []
  {
    if |packets| > 0 {
      NoAudio(k, packets[..|packets| - 1]);
    }
  }

  /** A reader that has to wait waits for a worker that is still there and has packets of that queue to take. */
  lemma NobodyStarves(s: State, steps: seq<Step>, input: seq<Packet>)
    requires Initial(s, input) && Run(s, steps).reader.pc.Pushing?
    ensures var e := Run(s, steps); var q := if e.reader.pc.video then e.video else e.audio;
      DoReader(e, false) == e ==>
        |q.line.packets| == q.line.cap > 0 && !q.over && e.worker != WorkerGone && (e.reader.pc.video ==>
          e.worker != QuitAudio)
  {
    hide Run, Conserved;
    AlwaysGood(s, steps, input);
  }

  // ---------------------------------------------------------------- both threads can always finish

  /** The reader has a step to make: it is not gone, and does not wait at a full queue. */
  predicate ReaderCanMove(s: State) {
    match s.reader.pc
    case Pushing(_, video) => PushMeets((if video then s.video else s.audio).line, true) != MustWait
    case ReaderGone => false
    case _ => true
  }

  function ReaderWork(r: ReaderState): nat {
    match r.pc
    case Reading => 2 * |r.rest| + 3
    case Pushing(_, _) => 2 * |r.rest| + 4
    case EndingVideo => 2
    case EndingAudio => 1
    case ReaderGone => 0
  }

  function Queued(s: State): nat {
    |s.video.line.packets| + |s.audio.line.packets|
  }

  function StillOn(s: State): nat {
    (if s.video.over then 0 else 1) + if s.audio.over then 0 else 1
  }

  /** Steps of the worker until it takes a packet, or else holds a stream to be over, or else is gone. */
  function WorkerWay(s: State): nat {
    if |s.video.line.packets| > 0 then
      match s.worker
      case PopVideo => 0
      case Top => 1
      case AskAudio => 2
      case PopAudio(_) => 3
      case _ => 4
    else if |s.audio.line.packets| > 0 then
      match s.worker
      case PopAudio(_) => 0
      case AskVideo => 1
      case PopVideo => 2
      case Top => 3
      case _ => 4
    else if !s.video.over then
      match s.worker
      case AskVideo => 0
      case PopVideo => 1
      case Top => 2
      case AskAudio => 3
      case _ => 4
    else if !s.audio.over then
      match s.worker
      case AskAudio => 0
      case PopAudio(_) => 1
      case _ => 2
    else
      match s.worker
      case WorkerGone => 0
      case QuitAudio => 1
      case QuitVideo => 2
      case _ => 3
  }

  lemma ReaderMoves(s: State)
    requires ReaderCanMove(s)
    ensures ReaderWork(DoReader(s, false).reader) < ReaderWork(s.reader)
  {
  }

  /** While the reader waits or is gone, each step of the worker brings it nearer to its end. */
  lemma WorkerMoves(s: State, input: seq<Packet>)
    requires Good(s, input) && !s.reader.cut && !s.quitEarly && !ReaderCanMove(s)
    requires s.reader.pc != ReaderGone || s.worker != WorkerGone
    ensures var t := DoWorker(s, false);
      && t.reader == s.reader
      && (Queued(t) < Queued(s)
          || (Queued(t) == Queued(s) && StillOn(t) < StillOn(s))
          || (Queued(t) == Queued(s) && StillOn(t) == StillOn(s) && WorkerWay(t) < WorkerWay(s)))
  {
    hide Conserved, ForVideo, ForAudio, ReaderDone;
  }

  lemma RunFirst(s: State, step: Step, rest: seq<Step>)
    ensures Run(s, [step] + rest) == Run(Do(s, step), rest)
  {
    hide Do;
    RunConcat(s, [step], rest);
    assert [step][..0] == [];
  }

  /** From every state of a clean run the two threads can come to their ends, whatever order got them there. */
  lemma {:induction false} CanFinish(s: State, input: seq<Packet>) returns (more: seq<Step>)
    requires Good(s, input) && !s.reader.cut && !s.quitEarly
    ensures Clean(more) && Run(s, more).reader.pc == ReaderGone && Run(s, more).worker == WorkerGone
    decreases ReaderWork(s.reader), Queued(s), StillOn(s), WorkerWay(s)
  {
    hide Good, DoReader, DoWorker, ReaderWork, Queued, StillOn, WorkerWay, ReaderCanMove;
    if s.reader.pc == ReaderGone && s.worker == WorkerGone {
      more := [];
    } else {
      var step := if ReaderCanMove(s) then Reader(false) else Worker(false);
      if ReaderCanMove(s) {
        ReaderMoves(s);
      } else {
        WorkerMoves(s, input);
      }
      GoodStep(s, step, input);
      CleanStep(s, step, input);
      var rest := CanFinish(Do(s, step), input);
      more := [step] + rest;
      RunFirst(s, step, rest);
    }
  }

  /**
    No deadlock, and no packet left behind: every clean run can be continued, by clean steps alone, to a state in
    which both threads are gone and the worker has taken exactly the routed packets of the input.
   */
  lemma EveryCleanRunCanFinish(s: State, steps: seq<Step>, input: seq<Packet>) returns (more: seq<Step>)
    requires Initial(s, input) && Clean(steps)
    ensures var e := Run(s, steps + more);
      && Clean(more) && e.reader.pc == ReaderGone && e.worker == WorkerGone
      && e.video.taken == Routed(e.streams, input, true) && e.audio.taken == Routed(e.streams, input, false)
  {
    hide Run, Routed, Good;
    AlwaysGood(s, steps, input);
    CleanRun(s, steps, input);
    more := CanFinish(Run(s, steps), input);
    RunConcat(s, steps, more);
    assert Clean(steps + more);
    CleanRunTakesAll(s, steps + more, input, true);
    CleanRunTakesAll(s, steps + more, input, false);
  }

  lemma {:induction false} RunConcat(s: State, a: seq<Step>, b: seq<Step>)
    ensures Run(s, a + b) == Run(Run(s, a), b)
  {
    hide Do;
    if |b| == 0 {
      assert a + b == a;
    } else {
      RunConcat(s, a, b[..|b| - 1]);
      assert (a + b)[..|a + b| - 1] == a + b[..|b| - 1];
    }
  }
}
