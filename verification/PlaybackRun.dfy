/**
  Playback as a run: the two pumps of play.go, the pool's pause and resume, segment changes and the passage of
  time, interleaved in any order at the granularity of the program's locks. What is true of every run.
 */
module PlaybackRun {
  import opened Wrappers
  import opened Playback

  datatype Packet = Packet(pts: Time, duration: int, idr: bool)

  /** What a pump does after it has applied the splice gap. */
  datatype Use = ForPacket | ForPauseCard(second: bool) | ForLoadingCard

  /** Where a pump stands; `second` tells the hold before the clock from the hold before the fetch. */
  datatype Pc =
    | Stopped
    | Hold(second: bool)                  // holdWhilePaused, about to look whether the transcoder is paused
    | CardCheck(second: bool)             // it was: about to ask for the pause card
    | Apply(second: bool)                 // about to apply a pause event
    | Fetch                               // nextPacket
    | WaitClock
    | Gap(use: Use)                       // about to take the splice gap
    | GapAudio(use: Use)                  // gap taken, neither track advanced
    | GapVideo(use: Use)                  // audio advanced, video not yet
    | Loading                             // about to take the loading debt
    | PayLoading                          // debt taken, not yet paid
    | Gate                                // consumeVideoDrop
    | Emit(drop: bool)                    // about to send or drop the packet
    | Card(loading: bool, second: bool)   // about to send a card
    | Book(loading: bool, second: bool)   // card sent, not yet booked

  datatype Pump = Pump(pc: Pc, packet: Packet, gap: int, hold: int)

  /**
    The fields from audioContent on are bookkeeping of this model: RTP time of in-stream packets, whether a
    card awaits a key frame, how often a frame went out against that, what became of each pause (pausesTaken adds up
    the pauses a pump took, whether or not there was a clock to shift), how far other causes shifted the clock, how
    much of the medium has been played (time counts as it passes), and what became of the splice.
   */
  datatype State = State(
    now: Time, frameTime: int, ts: PauseInfo, pool: PoolTime, sender: Sender, video: Pump, audio: Pump,
    audioContent: int, videoContent: int, owesIDR: bool, violations: nat,
    applied: seq<nat>, pausedTotal: int, pausesTaken: int, missed: int, base: int, holdShift: int,
    played: int, splice: Splice)

  /**
    The splice of a segment: when the last RTP packet before the segment went out, when the segment took its gap
    and from which last packet on, and what the gap has added to either track.
   */
  datatype Splice = Splice(before: Option<Time>, at: Option<Time>, from: Option<Time>, audio: int, video: int)

  function GapTakenIn(s: State): Splice {
    if s.sender.gapPending then s.splice.(at := Some(s.now), from := s.sender.lastRTPAt) else s.splice
  }

  datatype Choice = Choice(stop: bool, ok: bool, timeout: bool, packet: Packet)

  datatype Step =
    | Tick(elapsed: nat)
    | Pause
    | Resume
    | NewSegment(offset: int)
    | VideoStep(c: Choice)
    | AudioStep(c: Choice)

  // ---------------------------------------------------------------- the steps

  function Pending(s: State): int {
    if s.ts.epoch == s.sender.pauseEpoch then 0 else s.ts.last
  }

  function AfterGap(use: Use): Pc {
    match use
    case ForPacket => Loading
    case ForPauseCard(second) => Card(false, second)
    case ForLoadingCard => Card(true, false)
  }

  /** The gap between the position of the media clock and that of the pool. */
  function PositionGap(s: State): int {
    s.sender.clock.ptsStart - s.sender.clock.wallStart + s.pool.startedAt
  }

  /** applyPauseEvent, as either pump does it. */
  function DoApply(s: State): State {
    var t := s.(sender := PauseApplied(s.sender, s.ts, s.now));
    if s.ts.epoch == s.sender.pauseEpoch then t
    else t.(applied := s.applied + [s.ts.epoch], pausesTaken := s.pausesTaken + s.ts.last)
  }

  function DoAnchor(s: State, pts: Time): State {
    if s.sender.clock.anchored then s
    else
      var t := s.(sender := s.sender.(clock := Anchored(s.sender.clock, pts, s.now)));
      t.(base := PositionGap(t) - Pending(t) - t.missed, holdShift := 0)
  }

  /** Paying the loading debt of a pump. */
  function DoPay(s: State, d: int): State {
    var t := s.(sender := LoadingPaid(s.sender, d, s.now));
    if d > 0 && s.sender.clock.anchored then t.(holdShift := s.holdShift + d) else t
  }

  function DoVideo(s: State, c: Choice): State {
    var v := s.video;
    match v.pc
    case Stopped => s
    case Hold(second) =>
      s.(video := v.(pc := if c.stop then Stopped else if s.ts.paused then CardCheck(second) else Apply(second)))
    case CardCheck(second) =>
      s.(video := v.(pc := if s.ts.paused && c.ok then Gap(ForPauseCard(second)) else Hold(second)))
    case Apply(second) => DoApply(s).(video := v.(pc := if second then WaitClock else Fetch))
    case Fetch =>
      s.(video :=
        if c.stop then v.(pc := Stopped)
        else if c.timeout then (if c.ok then v.(pc := Gap(ForLoadingCard)) else v)
        else v.(pc := Hold(true), packet := c.packet))
    case WaitClock =>
      if c.stop then s.(video := v.(pc := Stopped)) else DoAnchor(s, v.packet.pts).(video := v.(pc := Gap(ForPacket)))
    case Gap(use) =>
      var gap := GapOf(s.sender, s.now);
      s.(sender := GapTaken(s.sender, s.now), splice := GapTakenIn(s),
         video := v.(pc := if gap > 0 then GapAudio(use) else AfterGap(use), gap := gap))
    case GapAudio(use) =>
      s.(sender := Audio(s.sender, v.gap), splice := s.splice.(audio := s.splice.audio + v.gap),
         video := v.(pc := GapVideo(use)))
    case GapVideo(use) =>
      s.(sender := Video(s.sender, v.gap), splice := s.splice.(video := s.splice.video + v.gap),
         video := v.(pc := AfterGap(use), gap := 0))
    case Loading =>
      s.(sender := LoadingTaken(s.sender),
         video := v.(pc := if s.sender.loadingSent > 0 then PayLoading else Gate, hold := s.sender.loadingSent))
    case PayLoading => DoPay(s, v.hold).(video := v.(pc := Gate, hold := 0))
    case Gate =>
      var drop := s.sender.dropToIDR && !v.packet.idr;
      s.(sender := s.sender.(dropToIDR := drop), video := v.(pc := Emit(drop)))
    case Emit(drop) =>
      s.(sender := FramePassed(s.sender, s.frameTime, s.now), videoContent := s.videoContent + s.frameTime,
         owesIDR := s.owesIDR && (drop || !v.packet.idr),
         violations := s.violations + (if !drop && !v.packet.idr && s.owesIDR then 1 else 0),
         video := v.(pc := Hold(false)))
    case Card(loading, second) =>
      s.(sender := CardSent(s.sender, s.now), owesIDR := true,
        video := v.(pc := Book(loading, second)))
    case Book(loading, second) =>
      s.(sender := if loading then LoadingBooked(s.sender) else PauseBooked(s.sender),
         video := v.(pc := if loading then Fetch else Hold(second)))
  }

  /** Sending an audio packet, shifting the clock first when it has fallen far behind. */
  function DoSendAudio(s: State, packet: Packet): State {
    s.(sender := AudioSent(s.sender, packet.pts, packet.duration, s.now),
       audioContent := s.audioContent + AudioDuration(packet.duration),
       holdShift := s.holdShift + CatchUp(s.sender.clock, packet.pts, s.now))
  }

  function DoAudio(s: State, c: Choice): State {
    var a := s.audio;
    match a.pc
    case Hold(second) =>
      if c.stop then s.(audio := a.(pc := Stopped))
      else if s.ts.paused then s
      else s.(audio := a.(pc := Apply(second)))
    case Apply(second) => DoApply(s).(audio := a.(pc := if second then WaitClock else Fetch))
    case Fetch => s.(audio := if c.stop then a.(pc := Stopped) else a.(pc := Hold(true), packet := c.packet))
    case WaitClock =>
      if c.stop then s.(audio := a.(pc := Stopped)) else DoAnchor(s, a.packet.pts).(audio := a.(pc := Gap(ForPacket)))
    case Gap(use) =>
      var gap := GapOf(s.sender, s.now);
      s.(sender := GapTaken(s.sender, s.now), splice := GapTakenIn(s),
         audio := a.(pc := if gap > 0 then GapAudio(use) else Loading, gap := gap))
    case GapAudio(use) =>
      s.(sender := Audio(s.sender, a.gap), splice := s.splice.(audio := s.splice.audio + a.gap),
         audio := a.(pc := GapVideo(use)))
    case GapVideo(_) =>
      s.(sender := Video(s.sender, a.gap), splice := s.splice.(video := s.splice.video + a.gap),
         audio := a.(pc := Loading, gap := 0))
    case Loading =>
      s.(sender := LoadingTaken(s.sender),
         audio := a.(pc := if s.sender.loadingSent > 0 then PayLoading else Emit(false), hold := s.sender.loadingSent))
    case PayLoading => DoPay(s, a.hold).(audio := a.(pc := Emit(false), hold := 0))
    case Emit(_) => DoSendAudio(s, a.packet).(audio := a.(pc := Hold(false)))
    case _ => s
  }

  /** The pool resumes; a pause event that no pump has taken yet is overwritten. */
  function DoResume(s: State): State {
    if !s.pool.paused then s
    else
      s.(pool := PoolResumeAt(s.pool, s.now), ts := ResumeAt(s.ts, s.now), missed := s.missed + Pending(s))
  }

  /** Both pumps have returned: the next segment has a transcoder of its own, paused if the pool is. */
  function DoSegment(s: State, offset: int): State {
    if s.video.pc != Stopped || s.audio.pc != Stopped then s
    else
      var ts := PauseInfo(false, 0, 0, 0);
      var pool := PoolTime(s.pool.paused, s.now - offset, if s.pool.paused then Some(s.now) else s.pool.pausedAt);
      s.(ts := if s.pool.paused then PauseAt(ts, s.now) else ts, pool := pool, sender := Begun(s.sender),
         video := s.video.(pc := Hold(false)), audio := s.audio.(pc := Hold(false)), owesIDR := false,
         applied := [], pausedTotal := 0, pausesTaken := 0, missed := 0, base := 0, holdShift := 0,
         played := offset, splice := Splice(s.sender.lastRTPAt, None, None, 0, 0))
  }

  function Do(s: State, step: Step): State {
    match step
    case Tick(elapsed) =>
      s.(now := s.now + elapsed, pausedTotal := s.pausedTotal + if s.ts.paused then elapsed else 0,
         played := s.played + if s.pool.paused then 0 else elapsed)
    case Pause => if s.pool.paused then s else s.(pool := PoolPauseAt(s.pool, s.now), ts := PauseAt(s.ts, s.now))
    case Resume => DoResume(s)
    case NewSegment(offset) => DoSegment(s, offset)
    case VideoStep(c) => DoVideo(s, c)
    case AudioStep(c) => DoAudio(s, c)
  }

  function Run(s: State, steps: seq<Step>): State {
    if |steps| == 0 then s else Do(Run(s, steps[..|steps| - 1]), steps[|steps| - 1])
  }

  /** A connected sender before its first segment. */
  ghost predicate Initial(s: State) {
    && s.sender == Sender(0, 0, 0, false, None, false, Clock(false, 0, 0), 0, 0)
    && s.ts == PauseInfo(false, 0, 0, 0) && !s.pool.paused
    && s.video.pc == Stopped && s.audio.pc == Stopped
    && s.video.gap == s.video.hold == s.audio.gap == s.audio.hold == 0
    && s.audioContent == s.videoContent == 0 && !s.owesIDR && s.violations == 0
    && s.applied == [] && s.pausedTotal == s.pausesTaken == s.missed == 0
    && s.played == s.now - s.pool.startedAt && s.splice == Splice(None, None, None, 0, 0)
  }

  // ---------------------------------------------------------------- audio and video stay aligned

  function Unbooked(p: Pump): int {
    if p.pc.Book? then CARD_INTERVAL else 0
  }

  function OwedToVideo(p: Pump): int {
    if p.pc.GapVideo? then p.gap else 0
  }

  /** RTP time that holds, cards and splices have added to video beyond what they have added to audio. */
  function HoldLead(s: State): int {
    (s.sender.videoRtp - s.videoContent) - (s.sender.audioRtp - s.audioContent)
  }

  predicate GapOk(p: Pump) {
    if p.pc.GapAudio? || p.pc.GapVideo? then p.gap > 0 else p.gap == 0
  }

  predicate PumpOk(p: Pump) {
    (if p.pc.PayLoading? then p.hold > 0 else p.hold == 0) && GapOk(p)
  }

  predicate Aligned(s: State) {
    && PumpOk(s.video) && PumpOk(s.audio)
    && !s.audio.pc.Book? && !s.audio.pc.Card?
    && s.sender.pauseSent >= 0 && s.sender.loadingSent >= 0
    && HoldLead(s) == s.sender.pauseSent + s.sender.loadingSent + Unbooked(s.video) + s.video.hold + s.audio.hold
                      - OwedToVideo(s.video) - OwedToVideo(s.audio)
  }

  lemma AlignedVideo(s: State, c: Choice)
    requires Aligned(s)
    ensures Aligned(DoVideo(s, c))
  {
    hide Aligned, DoVideo;
    if SendsCard(s.video.pc) {
      AlignedCard(s, c);
    } else {
      AlignedFrame(s, c);
    }
  }

  /** On the way to a card or a packet: the splice gap, the card, its booking. */
  predicate SendsCard(pc: Pc) {
    pc.Gap? || pc.GapAudio? || pc.GapVideo? || pc.Card? || pc.Book?
  }

  lemma AlignedCard(s: State, c: Choice)
    requires Aligned(s) && SendsCard(s.video.pc)
    ensures Aligned(DoVideo(s, c))
  {
  }

  lemma AlignedFrame(s: State, c: Choice)
    requires Aligned(s) && !SendsCard(s.video.pc)
    ensures Aligned(DoVideo(s, c))
  {
    hide DoApply, DoAnchor;
    match s.video.pc
    case Apply(_) => ApplyLead(s);
    case WaitClock => AnchorKeeps(s, s.video.packet.pts);
    case _ =>
  }

  lemma AlignedAudio(s: State, c: Choice)
    requires Aligned(s)
    ensures Aligned(DoAudio(s, c))
  {
    hide DoApply, DoAnchor;
    match s.audio.pc
    case Apply(_) => ApplyLead(s);
    case WaitClock => AnchorKeeps(s, s.audio.packet.pts);
    case _ =>
  }

  lemma AlignedStep(s: State, step: Step)
    requires Aligned(s)
    ensures Aligned(Do(s, step))
  {
    hide DoVideo, DoAudio;
    match step
    case VideoStep(c) => AlignedVideo(s, c);
    case AudioStep(c) => AlignedAudio(s, c);
    case _ =>
  }

  lemma AnchorKeeps(s: State, pts: Time)
    ensures var t := DoAnchor(s, pts);
      t == s.(sender := s.sender.(clock := t.sender.clock), base := t.base, holdShift := t.holdShift)
  {
  }

  /** Applying a pause event pays exactly the debt of the cards sent. */
  lemma ApplyLead(s: State)
    requires s.sender.pauseSent >= 0
    ensures var t := DoApply(s);
      HoldLead(t) - t.sender.pauseSent == HoldLead(s) - s.sender.pauseSent && t.sender.pauseSent >= 0 &&
      t.sender.loadingSent == s.sender.loadingSent && t.video == s.video && t.audio == s.audio
  {
  }

  /**
    After every step of every run the lead of video over audio is the debt for cards that were sent but not
    settled, plus what a pump is just about to pay or to book.
   */
  lemma {:induction false} AlwaysAligned(s: State, steps: seq<Step>)
    requires Initial(s)
    ensures Aligned(Run(s, steps))
  {
    hide Aligned, Do;
    if |steps| == 0 {
      InitiallyAligned(s);
    } else {
      AlwaysAligned(s, steps[..|steps| - 1]);
      AlignedStep(Run(s, steps[..|steps| - 1]), steps[|steps| - 1]);
    }
  }

  lemma InitiallyAligned(s: State)
    requires Initial(s)
    ensures Aligned(s)
  {
  }

  predicate InFlight(p: Pump) {
    p.pc.GapVideo? || p.pc.PayLoading? || p.pc.Book?
  }

  /** Between the critical sections the lead is the booked debt, and once that is settled there is none. */
  lemma SettledMeansAligned(s: State, steps: seq<Step>)
    requires Initial(s)
    ensures var e := Run(s, steps);
      !InFlight(e.video) && !InFlight(e.audio) ==> HoldLead(e) == e.sender.pauseSent + e.sender.loadingSent
  {
    hide Run;
    AlwaysAligned(s, steps);
  }

  // ---------------------------------------------------------------- no frame overtakes the key frame a card calls for

  /** A pause card between the look at the pause and its booking. */
  predicate PauseCardInFlight(p: Pump) {
    match p.pc
    case Gap(ForPauseCard(_)) => true
    case GapAudio(ForPauseCard(_)) => true
    case GapVideo(ForPauseCard(_)) => true
    case Card(false, _) => true
    case Book(false, _) => true
    case _ => false
  }

  /** The packet the pump holds, if it holds one, has a key frame. */
  predicate HoldsKey(p: Pump) {
    p.packet.idr &&
    match p.pc
    case Hold(second) => second
    case CardCheck(second) => second
    case Apply(second) => second
    case Gap(use) => HoldsFor(use)
    case GapAudio(use) => HoldsFor(use)
    case GapVideo(use) => HoldsFor(use)
    case Card(_, second) => second
    case Book(_, second) => second
    case WaitClock => true
    case Loading => true
    case PayLoading => true
    case Gate => true
    case _ => false
  }

  predicate HoldsFor(use: Use) {
    match use
    case ForPacket => true
    case ForPauseCard(second) => second
    case ForLoadingCard => false
  }

  /** Time passes during a pause. */
  predicate TimePasses(s: State, step: Step) {
    step.Resume? && s.pool.paused ==> s.now > s.ts.since
  }

  /**
    The audio pump takes the event of a pause whose first card is still on its way: nothing has been booked
    against it, no key frame is called for, none is in hand, and no new pause has begun.
   */
  predicate Overtakes(s: State, step: Step) {
    && step.AudioStep? && s.audio.pc.Apply? && s.ts.epoch != s.sender.pauseEpoch
    && PauseCardInFlight(s.video) && !s.ts.paused && s.sender.pauseSent == 0 && !s.sender.dropToIDR
    && !HoldsKey(s.video)
  }

  ghost predicate TimelyRun(s: State, steps: seq<Step>) {
    forall k :: 0 <= k < |steps| ==> TimePasses(Run(s, steps[..k]), steps[k])
  }

  ghost predicate NeverOvertakes(s: State, steps: seq<Step>) {
    forall k :: 0 <= k < |steps| ==> !Overtakes(Run(s, steps[..k]), steps[k])
  }

  predicate EventWaits(s: State) {
    s.ts.paused || s.ts.epoch != s.sender.pauseEpoch
  }

  predicate Guarded(s: State) {
    s.sender.dropToIDR || HoldsKey(s.video) ||
    match s.video.pc
    case Stopped => true
    case Book(loading, _) => loading || EventWaits(s)
    case Apply(_) => s.sender.pauseSent > 0 && s.ts.epoch != s.sender.pauseEpoch
    case Hold(_) => s.sender.pauseSent > 0 && EventWaits(s)
    case CardCheck(_) => s.sender.pauseSent > 0 && EventWaits(s)
    case Emit(drop) => !drop && s.video.packet.idr
    case _ => PauseCardInFlight(s.video) && EventWaits(s)
  }

  predicate Gated(s: State) {
    && s.pool.paused == s.ts.paused
    && s.sender.pauseSent >= 0
    && s.sender.pauseEpoch <= s.ts.epoch
    && (s.ts.epoch > 0 ==> s.ts.last > 0)
    && (s.video.pc == Emit(true) ==> s.sender.dropToIDR)
    && (s.owesIDR || PauseCardInFlight(s.video) ==> Guarded(s))
    && (s.owesIDR && s.video.pc == Emit(false) ==> s.video.packet.idr)
    && s.violations == 0
  }

  lemma ApplyGate(s: State)
    requires Gated(s)
    ensures var t := DoApply(s);
      && t.sender.pauseEpoch == s.ts.epoch && t.sender.pauseSent >= 0
      && t == s.(sender := t.sender, applied := t.applied, pausesTaken := t.pausesTaken)
      && (s.sender.dropToIDR ==> t.sender.dropToIDR)
      && (if s.ts.epoch != s.sender.pauseEpoch then (s.sender.pauseSent > 0 ==> t.sender.dropToIDR)
          else t.sender == s.sender)
  {
  }

  lemma GatedCard(s: State, c: Choice)
    requires Gated(s) && SendsCard(s.video.pc)
    ensures Gated(DoVideo(s, c))
  {
  }

  lemma GatedVideo(s: State, c: Choice)
    requires Gated(s)
    ensures Gated(DoVideo(s, c))
  {
    hide Gated, DoVideo;
    if SendsCard(s.video.pc) {
      GatedCard(s, c);
    } else if SettlesTime(s.video.pc) {
      GatedSettling(s, c);
    } else {
      GatedFrame(s, c);
    }
  }

  predicate SettlesTime(pc: Pc) {
    pc.Apply? || pc.WaitClock? || pc.PayLoading?
  }

  lemma GatedSettling(s: State, c: Choice)
    requires Gated(s) && SettlesTime(s.video.pc)
    ensures Gated(DoVideo(s, c))
  {
    hide DoApply, DoAnchor, DoPay;
    match s.video.pc
    case Apply(_) => ApplyGate(s);
    case WaitClock => AnchorKeeps(s, s.video.packet.pts);
    case PayLoading => PayKeeps(s, s.video.hold);
  }

  lemma GatedFrame(s: State, c: Choice)
    requires Gated(s) && !SendsCard(s.video.pc) && !SettlesTime(s.video.pc)
    ensures Gated(DoVideo(s, c))
  {
    hide DoApply, DoAnchor, DoPay;
  }

  /** What the gate looks at. */
  predicate SameGate(s: State, t: State) {
    && t.pool.paused == s.pool.paused && t.ts == s.ts && t.video == s.video
    && t.sender.pauseSent == s.sender.pauseSent && t.sender.pauseEpoch == s.sender.pauseEpoch
    && t.sender.dropToIDR == s.sender.dropToIDR && t.owesIDR == s.owesIDR && t.violations == s.violations
  }

  lemma SameGateGated(s: State, t: State)
    requires Gated(s) && SameGate(s, t)
    ensures Gated(t)
  {
  }

  lemma AudioKeepsGate(s: State, c: Choice)
    requires !s.audio.pc.Apply?
    ensures SameGate(s, DoAudio(s, c))
  {
    hide DoAnchor, DoPay, DoSendAudio;
    match s.audio.pc
    case WaitClock => AnchorKeeps(s, s.audio.packet.pts);
    case PayLoading => PayKeeps(s, s.audio.hold);
    case Emit(_) => SendKeeps(s, s.audio.packet);
    case _ =>
  }

  lemma SendKeeps(s: State, packet: Packet)
    ensures SameGate(s, DoSendAudio(s, packet)) && DoSendAudio(s, packet).audio == s.audio
    ensures s.sender.clock.anchored ==> SameAnchor(s, DoSendAudio(s, packet))
  {
  }

  lemma GatedAudio(s: State, c: Choice)
    requires Gated(s) && !Overtakes(s, AudioStep(c))
    ensures Gated(DoAudio(s, c))
  {
    hide DoApply, DoPay, DoSendAudio, DoAnchor;
    if s.audio.pc.Apply? {
      ApplyGate(s);
    } else {
      AudioKeepsGate(s, c);
      SameGateGated(s, DoAudio(s, c));
    }
  }

  lemma PayKeeps(s: State, d: int)
    ensures var t := DoPay(s, d);
      t == s.(sender := t.sender, holdShift := t.holdShift) && t.sender.pauseEpoch == s.sender.pauseEpoch &&
      t.sender.pauseSent == s.sender.pauseSent && t.sender.dropToIDR == s.sender.dropToIDR
  {
  }

  lemma GatedStep(s: State, step: Step)
    requires Gated(s) && TimePasses(s, step) && !Overtakes(s, step)
    ensures Gated(Do(s, step))
  {
    hide DoVideo, DoAudio;
    match step
    case VideoStep(c) => GatedVideo(s, c);
    case AudioStep(c) => GatedAudio(s, c);
    case _ =>
  }

  /**
    As long as the audio pump never overtakes a card, no in-stream frame goes out between a card and the next
    frame that holds a key frame, whatever the pumps do in between; dropped frames still take their time on the
    wire (AlwaysAligned counts them).
   */
  lemma {:induction false} NoFrameBeforeKeyFrame(s: State, steps: seq<Step>)
    requires Initial(s) && TimelyRun(s, steps) && NeverOvertakes(s, steps)
    ensures Gated(Run(s, steps)) && Run(s, steps).violations == 0
  {
    hide Do, TimePasses, Overtakes, Gated;
    if |steps| == 0 {
      InitiallyGated(s);
    } else {
      var init := steps[..|steps| - 1];
      assert forall k :: 0 <= k < |init| ==> init[..k] == steps[..k];
      NoFrameBeforeKeyFrame(s, init);
      GatedStep(Run(s, init), steps[|steps| - 1]);
    }
    GatedIsClean(Run(s, steps));
  }

  lemma InitiallyGated(s: State)
    requires Initial(s)
    ensures Gated(s)
  {
  }

  lemma GatedIsClean(s: State)
    ensures Gated(s) ==> s.violations == 0
  {
  }

  // ---------------------------------------------------------------- pauses

  ghost predicate StrictlyUp(xs: seq<nat>) {
    forall i, j :: 0 <= i < j < |xs| ==> xs[i] < xs[j]
  }

  /** How long the pause that is on has lasted. */
  function Ongoing(s: State): int {
    if s.ts.paused then s.now - s.ts.since else 0
  }

  ghost predicate PausesCounted(s: State) {
    && s.pool.paused == s.ts.paused
    && (s.ts.paused ==> s.pool.pausedAt == Some(s.ts.since) && s.ts.since <= s.now)
    && s.sender.pauseEpoch <= s.ts.epoch
    && (s.ts.epoch > 0 ==> s.ts.last >= 0)
    && StrictlyUp(s.applied)
    && (forall i :: 0 <= i < |s.applied| ==> 0 < s.applied[i] <= s.sender.pauseEpoch)
    && s.pausedTotal == s.pausesTaken + s.missed + Pending(s) + Ongoing(s)
    && (s.sender.clock.anchored ==> PositionGap(s) == s.base - s.holdShift + Pending(s) + s.missed)
  }

  lemma CountedApply(s: State)
    requires PausesCounted(s)
    ensures PausesCounted(DoApply(s))
    ensures var t := DoApply(s); t == s.(sender := t.sender, applied := t.applied, pausesTaken := t.pausesTaken)
  {
  }

  lemma CountedAnchor(s: State, pts: Time)
    requires PausesCounted(s)
    ensures PausesCounted(DoAnchor(s, pts))
  {
    hide StrictlyUp;
  }

  lemma CountedPay(s: State, d: int)
    requires PausesCounted(s)
    ensures PausesCounted(DoPay(s, d))
  {
    hide StrictlyUp;
  }

  lemma CountedSend(s: State, packet: Packet)
    requires PausesCounted(s)
    ensures PausesCounted(DoSendAudio(s, packet))
  {
    hide StrictlyUp, Lateness;
  }

  /** What the count looks at. */
  predicate SameCounts(s: State, t: State) {
    && t.pool == s.pool && t.ts == s.ts && t.now == s.now
    && t.sender.pauseEpoch == s.sender.pauseEpoch && t.sender.clock == s.sender.clock && t.applied == s.applied
    && t.pausedTotal == s.pausedTotal && t.pausesTaken == s.pausesTaken && t.missed == s.missed
    && t.base == s.base && t.holdShift == s.holdShift
  }

  lemma SameCountsCounted(s: State, t: State)
    requires PausesCounted(s) && SameCounts(s, t)
    ensures PausesCounted(t)
  {
  }

  lemma VideoKeepsCounts(s: State, c: Choice)
    requires !s.video.pc.Apply? && !s.video.pc.WaitClock? && !s.video.pc.PayLoading?
    ensures SameCounts(s, DoVideo(s, c))
  {
    hide DoVideo;
    if SendsCard(s.video.pc) {
      CardKeepsCounts(s, c);
    } else {
      FrameKeepsCounts(s, c);
    }
  }

  lemma CardKeepsCounts(s: State, c: Choice)
    requires SendsCard(s.video.pc)
    ensures SameCounts(s, DoVideo(s, c))
  {
    hide GapOf;
  }

  lemma FrameKeepsCounts(s: State, c: Choice)
    requires !SendsCard(s.video.pc)
    requires !s.video.pc.Apply? && !s.video.pc.WaitClock? && !s.video.pc.PayLoading?
    ensures SameCounts(s, DoVideo(s, c))
  {
  }

  lemma AudioKeepsCounts(s: State, c: Choice)
    requires !s.audio.pc.Apply? && !s.audio.pc.WaitClock? && !s.audio.pc.PayLoading? && !s.audio.pc.Emit?
    ensures SameCounts(s, DoAudio(s, c))
  {
    hide GapOf;
  }

  lemma CountedVideo(s: State, c: Choice)
    requires PausesCounted(s)
    ensures PausesCounted(DoVideo(s, c))
  {
    hide DoApply, DoAnchor, DoPay, SameCounts, GapOf, StrictlyUp;
    match s.video.pc
    case Apply(_) => CountedApply(s);
    case WaitClock => CountedAnchor(s, s.video.packet.pts);
    case PayLoading => CountedPay(s, s.video.hold);
    case _ =>
      hide DoVideo, PausesCounted;
      VideoKeepsCounts(s, c);
      SameCountsCounted(s, DoVideo(s, c));
  }

  lemma CountedAudio(s: State, c: Choice)
    requires PausesCounted(s)
    ensures PausesCounted(DoAudio(s, c))
  {
    hide DoApply, DoAnchor, DoPay, DoSendAudio, SameCounts, GapOf, StrictlyUp;
    match s.audio.pc
    case Apply(_) => CountedApply(s);
    case WaitClock => CountedAnchor(s, s.audio.packet.pts);
    case PayLoading => CountedPay(s, s.audio.hold);
    case Emit(_) => CountedSend(s, s.audio.packet);
    case _ =>
      hide DoAudio, PausesCounted;
      AudioKeepsCounts(s, c);
      SameCountsCounted(s, DoAudio(s, c));
  }

  lemma CountedStep(s: State, step: Step)
    requires PausesCounted(s)
    ensures PausesCounted(Do(s, step))
  {
    hide DoVideo, DoAudio;
    match step
    case VideoStep(c) => CountedVideo(s, c);
    case AudioStep(c) => CountedAudio(s, c);
    case _ =>
  }

  lemma {:induction false} PausesAlwaysCounted(s: State, steps: seq<Step>)
    requires Initial(s)
    ensures PausesCounted(Run(s, steps))
  {
    hide Do;
    if |steps| > 0 {
      hide PausesCounted;
      PausesAlwaysCounted(s, steps[..|steps| - 1]);
      CountedStep(Run(s, steps[..|steps| - 1]), steps[|steps| - 1]);
    }
  }

  /** Whichever pump is first, a pause is applied once: the epochs applied within a segment only go up. */
  lemma EachPauseAppliedOnce(s: State, steps: seq<Step>)
    requires Initial(s)
    ensures StrictlyUp(Run(s, steps).applied)
  {
    hide Run;
    PausesAlwaysCounted(s, steps);
  }

  predicate WithinSegment(steps: seq<Step>) {
    forall k :: 0 <= k < |steps| ==> !steps[k].NewSegment?
  }

  /** The pool resumes while the event of the pause before is still waiting: the new event replaces it. */
  predicate Overwrites(s: State, step: Step) {
    step.Resume? && s.pool.paused && Pending(s) != 0
  }

  ghost predicate NeverOverwrites(s: State, steps: seq<Step>) {
    forall k :: 0 <= k < |steps| ==> !Overwrites(Run(s, steps[..k]), steps[k])
  }

  lemma MissedStep(s: State, step: Step)
    requires PausesCounted(s) && !step.NewSegment?
    ensures Do(s, step).missed == s.missed + (if Overwrites(s, step) then Pending(s) else 0)
    ensures Overwrites(s, step) ==> Pending(s) > 0
  {
    hide StrictlyUp;
  }

  lemma {:induction false} CountedFrom(s: State, steps: seq<Step>)
    requires PausesCounted(s)
    ensures PausesCounted(Run(s, steps))
  {
    hide Do, PausesCounted;
    if |steps| > 0 {
      CountedFrom(s, steps[..|steps| - 1]);
      CountedStep(Run(s, steps[..|steps| - 1]), steps[|steps| - 1]);
    }
  }

  lemma {:induction false} MissedOnlyByOverwriting(s: State, steps: seq<Step>)
    requires PausesCounted(s) && WithinSegment(steps)
    ensures Run(s, steps).missed >= s.missed
    ensures Run(s, steps).missed == s.missed <==> NeverOverwrites(s, steps)
  {
    hide Do, PausesCounted, Overwrites, Pending;
    if |steps| > 0 {
      var init := steps[..|steps| - 1];
      MissedOnlyByOverwriting(s, init);
      CountedFrom(s, init);
      MissedStep(Run(s, init), steps[|steps| - 1]);
      OneMoreStep(s, steps);
    }
  }

  lemma OneMoreStep(s: State, steps: seq<Step>)
    requires |steps| > 0
    ensures var init := steps[..|steps| - 1];
      NeverOverwrites(s, steps) <==> NeverOverwrites(s, init) && !Overwrites(Run(s, init), steps[|steps| - 1])
  {
    hide Run, Overwrites;
    var init := steps[..|steps| - 1];
    if NeverOverwrites(s, steps) {
      forall k | 0 <= k < |init| ensures !Overwrites(Run(s, init[..k]), init[k]) {
        assert init[..k] == steps[..k] && init[k] == steps[k];
      }
    }
    if NeverOverwrites(s, init) && !Overwrites(Run(s, init), steps[|steps| - 1]) {
      forall k | 0 <= k < |steps| ensures !Overwrites(Run(s, steps[..k]), steps[k]) {
        if k < |init| {
          assert init[..k] == steps[..k] && init[k] == steps[k];
        } else {
          assert steps[..k] == init;
        }
      }
    }
  }

  /** Where an anchored clock's wall time would be without pauses, holds and catch-ups. */
  function WallBase(s: State): int {
    s.sender.clock.wallStart - s.holdShift - s.pausesTaken
  }

  predicate SameAnchor(s: State, t: State) {
    t.sender.clock.anchored && t.base == s.base && WallBase(t) == WallBase(s)
  }

  lemma ApplyKeepsAnchor(s: State)
    requires s.sender.clock.anchored && PausesCounted(s)
    ensures SameAnchor(s, DoApply(s))
  {
  }

  lemma PayKeepsAnchor(s: State, d: int)
    requires s.sender.clock.anchored
    ensures SameAnchor(s, DoPay(s, d))
  {
  }

  lemma AnchoredVideo(s: State, c: Choice)
    requires s.sender.clock.anchored && PausesCounted(s)
    ensures SameAnchor(s, DoVideo(s, c))
  {
    hide DoApply, DoPay, GapOf;
    match s.video.pc
    case Apply(_) => ApplyKeepsAnchor(s);
    case PayLoading => PayKeepsAnchor(s, s.video.hold);
    case _ =>
  }

  lemma AnchoredAudio(s: State, c: Choice)
    requires s.sender.clock.anchored && PausesCounted(s)
    ensures SameAnchor(s, DoAudio(s, c))
  {
    hide DoApply, DoPay, DoSendAudio, GapOf;
    match s.audio.pc
    case Apply(_) => ApplyKeepsAnchor(s);
    case PayLoading => PayKeepsAnchor(s, s.audio.hold);
    case Emit(_) => SendKeeps(s, s.audio.packet);
    case _ =>
  }

  lemma AnchoredStays(s: State, step: Step)
    requires s.sender.clock.anchored && PausesCounted(s) && !step.NewSegment?
    ensures SameAnchor(s, Do(s, step))
  {
    hide DoVideo, DoAudio;
    match step
    case VideoStep(c) => AnchoredVideo(s, c);
    case AudioStep(c) => AnchoredAudio(s, c);
    case _ =>
  }

  lemma {:induction false} AnchoredRun(s: State, steps: seq<Step>)
    requires s.sender.clock.anchored && PausesCounted(s) && WithinSegment(steps)
    ensures SameAnchor(s, Run(s, steps))
  {
    hide Do, PausesCounted;
    if |steps| > 0 {
      CountedFrom(s, steps[..|steps| - 1]);
      AnchoredRun(s, steps[..|steps| - 1]);
      AnchoredStays(Run(s, steps[..|steps| - 1]), steps[|steps| - 1]);
    }
  }

  lemma {:induction false} RunConcat(s: State, a: seq<Step>, b: seq<Step>)
    ensures Run(s, a + b) == Run(Run(s, a), b)
  {
    hide Do;
    if |b| == 0 {
      assert a + b == a;
    } else {
      RunConcat(s, a, b[..|b| - 1]);
      assert (a + b)[..|a + b| - 1] == a + b[..|b| - 1];
    }
  }

  /** Where the media clock stands. */
  function MediaPosition(s: State): int {
    s.sender.clock.ptsStart + (s.now - s.sender.clock.wallStart)
  }

  /**
    Within a segment, the gap between the media clock and the position the pool reports changes only by
    loading holds and catch-ups, by events still waiting, and by events that were overwritten: a pause and
    its resume, once applied, leave it as it was.
   */
  lemma PausesAreNeutral(s: State, before: seq<Step>, after: seq<Step>)
    requires Initial(s) && WithinSegment(after)
    requires Run(s, before).sender.clock.anchored
    ensures var a, b := Run(s, before), Run(s, before + after);
      && PositionGap(b) - PositionGap(a)
         == (a.holdShift - b.holdShift) + (Pending(b) - Pending(a)) + (b.missed - a.missed)
      && (!a.pool.paused && !b.pool.paused && a.holdShift == b.holdShift && Pending(a) == Pending(b) == 0
          && a.missed == b.missed ==>
          MediaPosition(a) - Elapsed(a.pool, a.now) == MediaPosition(b) - Elapsed(b.pool, b.now))
  {
    hide Run;
    RunConcat(s, before, after);
    PausesAlwaysCounted(s, before);
    PausesAlwaysCounted(s, before + after);
    AnchoredRun(Run(s, before), after);
  }

  /**
    From any reachable state with an anchored clock on, within the segment and with no event waiting at either
    end: the clock moves, apart from holds and catch-ups, by exactly the time that passed in pauses that are over, if
    and only if the pool never resumed while an event was waiting.
   */
  lemma ShiftsArePausedTime(s: State, before: seq<Step>, after: seq<Step>)
    requires Initial(s) && WithinSegment(after) && Run(s, before).sender.clock.anchored
    requires Pending(Run(s, before)) == 0 && Pending(Run(s, before + after)) == 0
    ensures var a, b := Run(s, before), Run(s, before + after);
      && b.sender.clock.anchored
      && (b.sender.clock.wallStart - a.sender.clock.wallStart - (b.holdShift - a.holdShift)
            == (b.pausedTotal - Ongoing(b)) - (a.pausedTotal - Ongoing(a))
          <==> NeverOverwrites(a, after))
  {
    hide Run, Overwrites;
    RunConcat(s, before, after);
    PausesAlwaysCounted(s, before);
    PausesAlwaysCounted(s, before + after);
    AnchoredRun(Run(s, before), after);
    MissedOnlyByOverwriting(Run(s, before), after);
  }

  // ---------------------------------------------------------------- position

  predicate PlayedCounted(s: State) {
    (s.pool.paused ==> s.pool.pausedAt.Some?) && Elapsed(s.pool, s.now) == s.played
  }

  lemma PlayedStep(s: State, step: Step)
    requires PlayedCounted(s)
    ensures PlayedCounted(Do(s, step))
  {
    hide DoVideo, DoAudio;
    match step
    case VideoStep(c) => VideoLeavesPool(s, c);
    case AudioStep(c) => AudioLeavesPool(s, c);
    case _ =>
  }

  lemma VideoLeavesPool(s: State, c: Choice)
    ensures var t := DoVideo(s, c); t.pool == s.pool && t.now == s.now && t.played == s.played
  {
    hide PauseApplied, GapOf, LoadingPaid;
  }

  lemma AudioLeavesPool(s: State, c: Choice)
    ensures var t := DoAudio(s, c); t.pool == s.pool && t.now == s.now && t.played == s.played
  {
    hide PauseApplied, GapOf, LoadingPaid, AudioSent;
  }

  /**
    In every run the position the pool reports is the segment's offset plus the time that has passed without a
    pause since it began, capped at the length.
   */
  lemma {:induction false} PositionIsPlayedTime(s: State, steps: seq<Step>, length: Option<int>)
    requires Initial(s)
    ensures var e := Run(s, steps);
      PlayedCounted(e) &&
      Position(e.pool, e.now, length) == if length.Some? && e.played > length.value then length.value else e.played
  {
    hide Do;
    if |steps| > 0 {
      PositionIsPlayedTime(s, steps[..|steps| - 1], length);
      PlayedStep(Run(s, steps[..|steps| - 1]), steps[|steps| - 1]);
    }
  }

  // ---------------------------------------------------------------- the splice

  /** Whatever advances a track, except the gap itself, is marked as the last packet, and no mark is ever set back. */
  lemma AdvancesAreMarked(s: State, step: Step)
    ensures var t := Do(s, step);
      && (step.VideoStep? && !TakesGap(s.video.pc) &&
            (t.sender.audioRtp != s.sender.audioRtp || t.sender.videoRtp != s.sender.videoRtp) ==>
            t.sender.lastRTPAt == Some(s.now))
      && (step.AudioStep? && !TakesGap(s.audio.pc) &&
            (t.sender.audioRtp != s.sender.audioRtp || t.sender.videoRtp != s.sender.videoRtp) ==>
            t.sender.lastRTPAt == Some(s.now))
      && (t.sender.lastRTPAt == s.sender.lastRTPAt || t.sender.lastRTPAt == Some(s.now))
  {
    hide DoVideo, DoAudio;
    match step
    case VideoStep(c) => VideoMarks(s, c);
    case AudioStep(c) => AudioMarks(s, c);
    case _ =>
  }

  ghost predicate Marks(s: Sender, t: Sender, now: Time) {
    && (t.audioRtp != s.audioRtp || t.videoRtp != s.videoRtp ==> t.lastRTPAt == Some(now))
    && (t.lastRTPAt == s.lastRTPAt || t.lastRTPAt == Some(now))
  }

  lemma ApplyMarks(s: State)
    ensures Marks(s.sender, DoApply(s).sender, s.now)
  {
  }

  lemma PayMarks(s: State, d: int)
    ensures Marks(s.sender, DoPay(s, d).sender, s.now)
  {
  }

  lemma SendMarks(s: State, packet: Packet)
    ensures Marks(s.sender, DoSendAudio(s, packet).sender, s.now)
  {
    hide CatchUp, AudioDuration;
  }

  lemma AnchorMarks(s: State, pts: Time)
    ensures Marks(s.sender, DoAnchor(s, pts).sender, s.now)
  {
  }

  lemma VideoMarks(s: State, c: Choice)
    ensures var t := DoVideo(s, c);
      && (TakesGap(s.video.pc) || Marks(s.sender, t.sender, s.now))
      && (t.sender.lastRTPAt == s.sender.lastRTPAt || t.sender.lastRTPAt == Some(s.now))
  {
    if SendsCard(s.video.pc) {
      hide DoVideo, Marks, TakesGap;
      CardMarks(s, c);
    } else {
      hide DoApply, DoPay, DoAnchor;
      match s.video.pc
      case Apply(_) => ApplyMarks(s);
      case PayLoading => PayMarks(s, s.video.hold);
      case WaitClock => AnchorMarks(s, s.video.packet.pts);
      case _ =>
    }
  }

  lemma CardMarks(s: State, c: Choice)
    requires SendsCard(s.video.pc)
    ensures var t := DoVideo(s, c);
      && (TakesGap(s.video.pc) || Marks(s.sender, t.sender, s.now))
      && (t.sender.lastRTPAt == s.sender.lastRTPAt || t.sender.lastRTPAt == Some(s.now))
  {
    hide GapOf;
  }

  lemma AudioMarks(s: State, c: Choice)
    ensures var t := DoAudio(s, c);
      && (TakesGap(s.audio.pc) || Marks(s.sender, t.sender, s.now))
      && (t.sender.lastRTPAt == s.sender.lastRTPAt || t.sender.lastRTPAt == Some(s.now))
  {
    hide DoApply, DoPay, DoAnchor, DoSendAudio, GapOf;
    match s.audio.pc
    case Apply(_) => ApplyMarks(s);
    case PayLoading => PayMarks(s, s.audio.hold);
    case WaitClock => AnchorMarks(s, s.audio.packet.pts);
    case Emit(_) => SendMarks(s, s.audio.packet);
    case _ =>
  }

  /** The wall time from the last packet before the gap was taken until then. */
  function Silence(sp: Splice): int {
    if sp.at.Some? && sp.from.Some? && sp.at.value > sp.from.value then sp.at.value - sp.from.value else 0
  }

  function AudioToCome(p: Pump): int {
    if p.pc.GapAudio? then p.gap else 0
  }

  function VideoToCome(p: Pump): int {
    if p.pc.GapAudio? || p.pc.GapVideo? then p.gap else 0
  }

  predicate BeforeGap(pc: Pc) {
    pc.Stopped? || pc.Hold? || pc.CardCheck? || pc.Apply? || pc.Fetch? || pc.WaitClock? || pc.Gap?
  }

  predicate SpliceCounted(s: State) {
    && GapOk(s.video) && GapOk(s.audio)
    && s.splice.audio >= 0 && s.splice.video >= 0
    && s.splice.audio + AudioToCome(s.video) + AudioToCome(s.audio) == Silence(s.splice)
    && s.splice.video + VideoToCome(s.video) + VideoToCome(s.audio) == Silence(s.splice)
    && (s.splice.at.Some? ==> !s.sender.gapPending)
    && (s.splice.at.None? ==>
          BeforeGap(s.video.pc) && BeforeGap(s.audio.pc) &&
          (s.sender.gapPending || (s.video.pc == Stopped && s.audio.pc == Stopped)))
    && (s.applied == [] ==>
          if s.splice.at.Some? then s.splice.from == s.splice.before
          else (s.video.pc == Stopped && s.audio.pc == Stopped) || s.sender.lastRTPAt == s.splice.before)
  }

  lemma SplicedApply(s: State)
    ensures var t := DoApply(s);
      && t.sender.gapPending == s.sender.gapPending && |t.applied| >= |s.applied|
      && t == s.(sender := t.sender, applied := t.applied, pausesTaken := t.pausesTaken)
      && (t.applied == [] ==> t.sender.lastRTPAt == s.sender.lastRTPAt)
  {
  }

  predicate TakesGap(pc: Pc) {
    pc.Gap? || pc.GapAudio? || pc.GapVideo?
  }

  lemma SplicedVideoGap(s: State, c: Choice)
    requires SpliceCounted(s) && TakesGap(s.video.pc)
    ensures SpliceCounted(DoVideo(s, c))
  {
  }

  lemma SplicedAudioGap(s: State, c: Choice)
    requires SpliceCounted(s) && TakesGap(s.audio.pc)
    ensures SpliceCounted(DoAudio(s, c))
  {
  }

  lemma SplicedVideo(s: State, c: Choice)
    requires SpliceCounted(s) && !TakesGap(s.video.pc)
    ensures SpliceCounted(DoVideo(s, c))
  {
    hide SpliceCounted, DoVideo;
    if s.video.pc.Card? || s.video.pc.Book? || s.video.pc.Emit? || s.video.pc.Gate? {
      SplicedSend(s, c);
    } else {
      SplicedOther(s, c);
    }
  }

  lemma SplicedSend(s: State, c: Choice)
    requires SpliceCounted(s) && (s.video.pc.Card? || s.video.pc.Book? || s.video.pc.Emit? || s.video.pc.Gate?)
    ensures SpliceCounted(DoVideo(s, c))
  {
    hide Silence;
  }

  lemma SplicedOther(s: State, c: Choice)
    requires SpliceCounted(s) && !TakesGap(s.video.pc)
    requires !s.video.pc.Card? && !s.video.pc.Book? && !s.video.pc.Emit? && !s.video.pc.Gate?
    ensures SpliceCounted(DoVideo(s, c))
  {
    hide DoApply, DoAnchor, LoadingPaid, Silence;
    SplicedApply(s);
    AnchorKeeps(s, s.video.packet.pts);
    LoadingKeepsGap(s.sender, s.video.hold, s.now);
  }

  lemma SplicedAudio(s: State, c: Choice)
    requires SpliceCounted(s) && !TakesGap(s.audio.pc)
    ensures SpliceCounted(DoAudio(s, c))
  {
    hide DoApply, DoAnchor, LoadingPaid, AudioSent, GapOf, Silence;
    SplicedApply(s);
    AnchorKeeps(s, s.audio.packet.pts);
    LoadingKeepsGap(s.sender, s.audio.hold, s.now);
    SendKeepsGap(s.sender, s.audio.packet, s.now);
  }

  lemma LoadingKeepsGap(s: Sender, d: int, now: Time)
    ensures LoadingPaid(s, d, now).gapPending == s.gapPending
  {
  }

  lemma SendKeepsGap(s: Sender, packet: Packet, now: Time)
    ensures AudioSent(s, packet.pts, packet.duration, now).gapPending == s.gapPending
  {
  }

  lemma SplicedStep(s: State, step: Step)
    requires SpliceCounted(s)
    ensures SpliceCounted(Do(s, step))
  {
    hide DoVideo, DoAudio;
    match step
    case VideoStep(c) => if TakesGap(s.video.pc) { SplicedVideoGap(s, c); } else { SplicedVideo(s, c); }
    case AudioStep(c) => if TakesGap(s.audio.pc) { SplicedAudioGap(s, c); } else { SplicedAudio(s, c); }
    case _ =>
  }

  lemma {:induction false} AlwaysSpliced(s: State, steps: seq<Step>)
    requires Initial(s)
    ensures SpliceCounted(Run(s, steps))
  {
    hide Do, SpliceCounted;
    if |steps| == 0 {
      InitiallySpliced(s);
    } else {
      AlwaysSpliced(s, steps[..|steps| - 1]);
      SplicedStep(Run(s, steps[..|steps| - 1]), steps[|steps| - 1]);
    }
  }

  lemma InitiallySpliced(s: State)
    requires Initial(s)
    ensures SpliceCounted(s)
  {
  }

  /**
    In every run a segment's splice adds to either track, once and for both pumps together, exactly the wall time
    between the last packet before the gap is taken and then; and that packet is the last before the segment,
    unless a pause was applied first.
   */
  lemma SpliceIsSilence(s: State, steps: seq<Step>)
    requires Initial(s)
    ensures var e := Run(s, steps); var sp := e.splice;
      var silence := if sp.at.Some? && sp.from.Some? && sp.at.value > sp.from.value then sp.at.value - sp.from.value
        else 0;
      && (!e.video.pc.GapAudio? && !e.audio.pc.GapAudio? ==> sp.audio == silence)
      && (!e.video.pc.GapAudio? && !e.audio.pc.GapAudio? && !e.video.pc.GapVideo? && !e.audio.pc.GapVideo? ==>
            sp.video == silence)
      && (sp.at.Some? && e.applied == [] ==> sp.from == sp.before)
  {
    hide Run;
    AlwaysSpliced(s, steps);
  }
}
