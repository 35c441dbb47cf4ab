/**
  Pausing and pacing (internal/transcode/transcode.go:219-317, internal/streamer/play.go:89-184 and 298-760,
  internal/pool/pool.go:409-435 and 627-669). Each action that a lock makes indivisible is a function on
  values; the classes carry the fields the program updates, and every method is proved to perform the
  actions. RTP time is what sends and advances add up to; durations and instants are integers (nanoseconds).
 */
module Playback {
  import opened Wrappers
  import opened Bits
  import Frame
  import FrameTheorems

  type Time = int

  /** pauseFrameInterval: 500 ms. */
  const CARD_INTERVAL := 500_000_000

  // ---------------------------------------------------------------- pauses of the transcoder

  datatype PauseInfo = PauseInfo(paused: bool, since: Time, last: int, epoch: nat)

  function PauseAt(p: PauseInfo, now: Time): PauseInfo {
    if p.paused then p else p.(paused := true, since := now)
  }

  function ResumeAt(p: PauseInfo, now: Time): PauseInfo {
    if !p.paused then p else PauseInfo(false, 0, now - p.since, p.epoch + 1)
  }

  /** The last completed pause and its epoch, unless the caller has seen that epoch. */
  function EventSince(p: PauseInfo, seen: nat): (int, nat) {
    if p.epoch == seen then (0, seen) else (p.last, p.epoch)
  }

  class PauseState {
    var paused: bool
    var since: Time
    var last: int
    var epoch: nat

    ghost function View(): PauseInfo
      reads this
    {
      PauseInfo(paused, since, last, epoch)
    }

    constructor ()
      ensures View() == PauseInfo(false, 0, 0, 0)
    {
      paused, since, last, epoch := false, 0, 0, 0;
    }

    method Pause(now: Time)
      modifies this
      ensures View() == PauseAt(old(View()), now)
      ensures paused && last == old(last) && epoch == old(epoch) && since == if old(paused) then old(since) else now
    {
      if paused {
        return;
      }
      paused := true;
      since := now;
    }

    method Resume(now: Time)
      modifies this
      ensures View() == ResumeAt(old(View()), now)
      ensures !paused
      ensures old(paused) ==> last == now - old(since) && epoch == old(epoch) + 1
      ensures !old(paused) ==> last == old(last) && epoch == old(epoch)
    {
      if !paused {
        return;
      }
      last := now - since;
      epoch := epoch + 1;
      since := 0;
      paused := false;
    }

    method Event(lastSeen: nat) returns (duration: int, seen: nat)
      ensures (duration, seen) == EventSince(View(), lastSeen)
      ensures seen == epoch && duration == if epoch == lastSeen then 0 else last
    {
      if epoch == lastSeen {
        return 0, lastSeen;
      }
      return last, epoch;
    }
  }

  // ---------------------------------------------------------------- position as the pool reports it

  datatype PoolTime = PoolTime(paused: bool, startedAt: Time, pausedAt: Option<Time>)

  function PoolPauseAt(s: PoolTime, now: Time): PoolTime {
    if s.paused then s else s.(paused := true, pausedAt := Some(now))
  }

  function PoolResumeAt(s: PoolTime, now: Time): PoolTime {
    if !s.paused then s
    else
      PoolTime(false, if s.pausedAt.Some? then s.startedAt + (now - s.pausedAt.value) else s.startedAt, None)
  }

  /** Time played since the start of the medium, standing still during a pause. */
  function Elapsed(s: PoolTime, now: Time): int {
    (if s.paused && s.pausedAt.Some? then s.pausedAt.value else now) - s.startedAt
  }

  function Position(s: PoolTime, now: Time, length: Option<int>): int {
    if length.Some? && length.value <= Elapsed(s, now) then length.value else Elapsed(s, now)
  }

  class PoolSession {
    var busy: bool
    var requested: bool   // a request is set
    var started: bool     // startedAt is not the zero time
    var live: bool
    var paused: bool
    var startedAt: Time
    var pausedAt: Option<Time>
    var length: Option<int>
    var transcode: PauseState?

    ghost function View(): PoolTime
      reads this
    {
      PoolTime(paused, startedAt, pausedAt)
    }

    constructor (busy: bool, live: bool, startedAt: Option<Time>, length: Option<int>, transcode: PauseState?)
      ensures !paused && pausedAt == None && (started <==> startedAt.Some?)
      ensures startedAt.Some? ==> View() == PoolTime(false, startedAt.value, None)
      ensures requested == this.busy == busy && this.live == live && this.length == length &&
        this.transcode == transcode
    {
      this.busy, this.requested, this.live, this.length, this.transcode := busy, busy, live, length, transcode;
      this.started, this.startedAt := startedAt.Some?, if startedAt.Some? then startedAt.value else 0;
      paused, pausedAt := false, None;
    }

    method Pause(now: Time)
      modifies this, transcode
      ensures busy == old(busy) && live == old(live) && length == old(length) && transcode == old(transcode)
      ensures requested == old(requested) && started == old(started)
      ensures View() == if old(paused) || !busy || live then old(View()) else PoolPauseAt(old(View()), now)
      ensures !old(paused) && busy && !live ==> paused && pausedAt == Some(now) && startedAt == old(startedAt)
      ensures transcode != null ==>
        transcode.View() == if old(paused) || !busy || live then old(transcode.View())
          else PauseAt(old(transcode.View()), now)
    {
      if paused || !busy || live {
        return;
      }
      paused := true;
      pausedAt := Some(now);
      if transcode != null {
        transcode.Pause(now);
      }
    }

    method Resume(now: Time)
      modifies this, transcode
      ensures busy == old(busy) && live == old(live) && length == old(length) && transcode == old(transcode)
      ensures requested == old(requested) && started == old(started)
      ensures View() ==
        if old(started) then PoolResumeAt(old(View()), now)
        else if old(paused) then PoolTime(false, old(startedAt), None) else old(View())
      ensures transcode != null ==>
        transcode.View() == if old(paused) then ResumeAt(old(transcode.View()), now) else old(transcode.View())
    {
      if !paused {
        return;
      }
      if started && pausedAt.Some? {
        startedAt := startedAt + (now - pausedAt.value);
      }
      paused := false;
      pausedAt := None;
      if transcode != null {
        transcode.Resume(now);
      }
    }

    method PositionAt(at: Time) returns (position: int)
      ensures position == if requested && started then Position(View(), at, length) else 0
      ensures requested && started ==>
        var played := (if paused && pausedAt.Some? then pausedAt.value else at) - startedAt;
        position == if length.Some? && played > length.value then length.value else played
    {
      if !requested || !started {
        return 0;
      }
      var now := at;
      if paused && pausedAt.Some? {
        now := pausedAt.value;
      }
      position := now - startedAt;
      if length.Some? && length.value <= position {
        position := length.value;
      }
    }
  }

  // ---------------------------------------------------------------- the sender

  datatype Clock = Clock(anchored: bool, wallStart: Time, ptsStart: Time)

  function Shifted(c: Clock, d: int): Clock {
    if d > 0 && c.anchored then c.(wallStart := c.wallStart + d) else c
  }

  /** The first packet anchors the clock. */
  function Anchored(c: Clock, pts: Time, now: Time): Clock {
    if c.anchored then c else Clock(true, now, pts)
  }

  /** How far the clock is behind a packet's time. */
  function Lateness(c: Clock, pts: Time, now: Time): int {
    if !c.anchored || now - c.wallStart <= pts - c.ptsStart then 0 else (now - c.wallStart) - (pts - c.ptsStart)
  }

  datatype Sender = Sender(
    pauseEpoch: nat, pauseSent: int, loadingSent: int, dropToIDR: bool, lastRTPAt: Option<Time>, gapPending: bool,
    clock: Clock, audioRtp: int, videoRtp: int)

  function Begun(s: Sender): Sender {
    s.(pauseEpoch := 0, dropToIDR := false, clock := s.clock.(anchored := false), gapPending := true)
  }

  /** The splice gap, taken once per segment; a first segment has none. */
  function GapOf(s: Sender, now: Time): int {
    if s.gapPending && s.lastRTPAt.Some? && now - s.lastRTPAt.value > 0 then now - s.lastRTPAt.value else 0
  }

  function GapTaken(s: Sender, now: Time): Sender {
    s.(gapPending := false, lastRTPAt := Some(now))
  }

  function Audio(s: Sender, d: int): Sender {
    s.(audioRtp := s.audioRtp + d)
  }

  function Video(s: Sender, d: int): Sender {
    s.(videoRtp := s.videoRtp + d)
  }

  function Marked(s: Sender, now: Time): Sender {
    s.(lastRTPAt := Some(now))
  }

  function PauseBooked(s: Sender): Sender {
    s.(pauseSent := s.pauseSent + CARD_INTERVAL)
  }

  function LoadingBooked(s: Sender): Sender {
    s.(loadingSent := s.loadingSent + CARD_INTERVAL, dropToIDR := true)
  }

  function LoadingTaken(s: Sender): Sender {
    s.(loadingSent := 0)
  }

  /** The loading debt d, if there is one, is paid by the clock and by audio. */
  function LoadingPaid(s: Sender, d: int, now: Time): Sender {
    if d <= 0 then s else Marked(Audio(s.(clock := Shifted(s.clock, d)), d), now)
  }

  function PauseApplied(s: Sender, p: PauseInfo, now: Time): Sender {
    var (duration, epoch) := EventSince(p, s.pauseEpoch);
    if epoch == s.pauseEpoch then s
    else if duration <= 0 then s.(pauseEpoch := epoch)
    else
      var sent := s.pauseSent;
      var videoGap := duration - sent;
      var t := s.(pauseEpoch := epoch, pauseSent := 0, dropToIDR := s.dropToIDR || sent > 0,
                  clock := Shifted(s.clock, duration), lastRTPAt := Some(now));
      if videoGap < 0 then Audio(t, duration - videoGap) else Video(Audio(t, duration), videoGap)
  }

  /** Without a peer the debt is written off, and neither clock nor tracks move. */
  function PauseForgotten(s: Sender, p: PauseInfo): Sender {
    var (duration, epoch) := EventSince(p, s.pauseEpoch);
    if epoch == s.pauseEpoch then s
    else if duration <= 0 then s.(pauseEpoch := epoch)
    else s.(pauseEpoch := epoch, pauseSent := 0, dropToIDR := s.dropToIDR || s.pauseSent > 0)
  }

  /** bufferHoldThreshold: 350 ms. */
  const LATE_THRESHOLD := 350_000_000

  /** frametime of audio: 20 ms. */
  const AUDIO_FRAME := 20_000_000

  /** How far an audio packet that is sent now shifts the clock: not at all, or all the way when it is late. */
  function CatchUp(c: Clock, pts: Time, now: Time): int {
    if Lateness(c, pts, now) > LATE_THRESHOLD then Lateness(c, pts, now) else 0
  }

  function AudioDuration(duration: int): int {
    if duration <= 0 then AUDIO_FRAME else duration
  }

  function AudioSent(s: Sender, pts: Time, duration: int, now: Time): Sender {
    Marked(Audio(s.(clock := Shifted(s.clock, CatchUp(s.clock, pts, now))), AudioDuration(duration)), now)
  }

  /** A card, and a frame, take their time on the wire and are marked; a dropped frame too. */
  function CardSent(s: Sender, now: Time): Sender {
    Marked(Video(s, CARD_INTERVAL), now)
  }

  function FramePassed(s: Sender, duration: int, now: Time): Sender {
    Marked(Video(s, duration), now)
  }

  class MediaPeer {
    var audioRtp: int
    var videoRtp: int

    constructor ()
      ensures audioRtp == 0 && videoRtp == 0
    {
      audioRtp, videoRtp := 0, 0;
    }

    method SendVideo(duration: int)
      modifies this
      ensures videoRtp == old(videoRtp) + duration && audioRtp == old(audioRtp)
    {
      videoRtp := videoRtp + duration;
    }

    method AdvanceVideo(duration: int)
      modifies this
      ensures videoRtp == old(videoRtp) + duration && audioRtp == old(audioRtp)
    {
      videoRtp := videoRtp + duration;
    }

    method SendAudio(duration: int)
      modifies this
      ensures audioRtp == old(audioRtp) + duration && videoRtp == old(videoRtp)
    {
      audioRtp := audioRtp + duration;
    }

    method AdvanceAudio(duration: int)
      modifies this
      ensures audioRtp == old(audioRtp) + duration && videoRtp == old(videoRtp)
    {
      audioRtp := audioRtp + duration;
    }
  }

  class MediaClock {
    var anchored: bool
    var wallStart: Time
    var ptsStart: Time

    ghost function View(): Clock
      reads this
    {
      Clock(anchored, wallStart, ptsStart)
    }

    constructor ()
      ensures View() == Clock(false, 0, 0)
    {
      anchored, wallStart, ptsStart := false, 0, 0;
    }

    /**
      The first packet anchors the clock; for every other one the time still to sleep is returned. A sleep is cut
      short, and the packet not let through, when the context is cancelled.
     */
    method Wait(pts: Time, extraDelay: int, now: Time, cancelled: bool) returns (sleep: int, through: bool)
      modifies this
      ensures View() == Anchored(old(View()), pts, now)
      ensures !old(anchored) ==> View() == Clock(true, now, pts) && sleep == 0
      ensures old(anchored) ==> View() == old(View())
      ensures old(anchored) ==>
        var early := (pts - ptsStart) - (now - wallStart) + if extraDelay > 0 then extraDelay else 0;
        sleep == if early > 0 then early else 0
      ensures through <==> sleep == 0 || !cancelled
    {
      if !anchored {
        anchored, wallStart, ptsStart := true, now, pts;
        return 0, true;
      }
      sleep := (pts - ptsStart) - (now - wallStart);
      if extraDelay > 0 {
        sleep := sleep + extraDelay;
      }
      if sleep <= 0 {
        return 0, true;
      }
      return sleep, !cancelled;
    }

    method LatenessOf(pts: Time, now: Time) returns (late: int)
      ensures late == Lateness(View(), pts, now)
      ensures anchored ==>
        var behind := (now - wallStart) - (pts - ptsStart); late == if behind > 0 then behind else 0
    {
      if !anchored {
        return 0;
      }
      var expected, actual := pts - ptsStart, now - wallStart;
      if actual <= expected {
        return 0;
      }
      return actual - expected;
    }

    method Shift(duration: int)
      modifies this
      ensures View() == Shifted(old(View()), duration)
      ensures wallStart == old(wallStart) + if anchored && duration > 0 then duration else 0
    {
      if duration <= 0 {
        return;
      }
      if anchored {
        wallStart := wallStart + duration;
      }
    }

    method Reset()
      modifies this
      ensures View() == old(View()).(anchored := false)
    {
      anchored := false;
    }
  }

  class MediaSender {
    const peer: MediaPeer
    const clock: MediaClock
    var pauseEpoch: nat
    var pauseSent: int
    var loadingSent: int
    var dropToIDR: bool
    var lastRTPAt: Option<Time>
    var gapPending: bool
    var active: bool          // the peer has been taken up
    var speaking: bool
    var lastVideoPTSMs: int

    ghost function View(): Sender
      reads this, peer, clock
    {
      Sender(pauseEpoch, pauseSent, loadingSent, dropToIDR, lastRTPAt, gapPending, clock.View(), peer.audioRtp,
        peer.videoRtp)
    }

    constructor (peer: MediaPeer, clock: MediaClock)
      ensures this.peer == peer && this.clock == clock
      ensures View() == Sender(0, 0, 0, false, None, false, clock.View(), peer.audioRtp, peer.videoRtp)
      ensures !active && !speaking && lastVideoPTSMs == -1
    {
      this.peer, this.clock := peer, clock;
      pauseEpoch, pauseSent, loadingSent, dropToIDR, lastRTPAt, gapPending := 0, 0, 0, false, None, false;
      active, speaking, lastVideoPTSMs := false, false, -1;
    }

    method BeginSegment()
      modifies this, clock
      ensures pauseEpoch == 0 && !dropToIDR && !clock.anchored && gapPending
      ensures pauseSent == old(pauseSent) && loadingSent == old(loadingSent) && lastRTPAt == old(lastRTPAt)
      ensures View() == Begun(old(View())) && lastVideoPTSMs == -1 && active == old(active)
      ensures speaking == (old(speaking) || (lastRTPAt.Some? && active))
    {
      pauseEpoch := 0;
      dropToIDR := false;
      lastVideoPTSMs := -1;
      clock.Reset();
      gapPending := true;
      if lastRTPAt.Some? && active {
        speaking := true;
      }
    }

    /** The peer is taken up once it can be had. */
    method ResolvePeer(available: bool) returns (ok: bool)
      modifies this`active, this`speaking
      ensures ok == active == (old(active) || available)
      ensures speaking == (old(speaking) || (ok && !old(active)))
    {
      if active {
        return true;
      }
      if !available {
        return false;
      }
      active, speaking := true, true;
      return true;
    }

    method ApplySegmentGap(now: Time)
      modifies this`gapPending, this`lastRTPAt, peer
      ensures View() == Video(Audio(GapTaken(old(View()), now), GapOf(old(View()), now)), GapOf(old(View()), now))
      ensures !gapPending && lastRTPAt == Some(now)
      ensures old(gapPending) && old(lastRTPAt).Some? && now > old(lastRTPAt).value ==>
        peer.audioRtp == old(peer.audioRtp) + (now - old(lastRTPAt).value) &&
        peer.videoRtp == old(peer.videoRtp) + (now - old(lastRTPAt).value)
      ensures !(old(gapPending) && old(lastRTPAt).Some? && now > old(lastRTPAt).value) ==>
        peer.audioRtp == old(peer.audioRtp) && peer.videoRtp == old(peer.videoRtp)
    {
      var pending, last := gapPending, lastRTPAt;
      gapPending := false;
      lastRTPAt := Some(now);
      if !pending || last.None? {
        return;
      }
      var gap := now - last.value;
      if gap <= 0 {
        return;
      }
      peer.AdvanceAudio(gap);
      peer.AdvanceVideo(gap);
    }

    /** Nothing happens without a card to send, and nothing but the attempt without a peer to send it to. */
    method SendPauseFrame(now: Time, card: bool, available: bool) returns (sent: bool)
      modifies this, peer
      ensures sent == (card && (old(active) || available)) && active == (old(active) || sent)
      ensures !sent ==> View() == old(View())
      ensures var gap := GapOf(old(View()), now); sent ==>
        View() == PauseBooked(CardSent(Video(Audio(GapTaken(old(View()), now), gap), gap), now))
      ensures sent ==>
        lastRTPAt == Some(now) && pauseSent == old(pauseSent) + 500_000_000 &&
        peer.videoRtp - old(peer.videoRtp) == peer.audioRtp - old(peer.audioRtp) + 500_000_000
    {
      if !card {
        return false;
      }
      sent := ResolvePeer(available);
      if !sent {
        return;
      }
      ApplySegmentGap(now);
      peer.SendVideo(CARD_INTERVAL);
      lastRTPAt := Some(now);
      pauseSent := pauseSent + CARD_INTERVAL;
    }

    /** Nothing happens without a card to send, and nothing but the attempt without a peer to send it to. */
    method SendLoadingFrame(now: Time, card: bool, available: bool) returns (sent: bool)
      modifies this, peer
      ensures sent == (card && (old(active) || available)) && active == (old(active) || sent)
      ensures !sent ==> View() == old(View())
      ensures var gap := GapOf(old(View()), now); sent ==>
        View() == LoadingBooked(CardSent(Video(Audio(GapTaken(old(View()), now), gap), gap), now))
      ensures sent ==>
        lastRTPAt == Some(now) && loadingSent == old(loadingSent) + 500_000_000 &&
        peer.videoRtp - old(peer.videoRtp) == peer.audioRtp - old(peer.audioRtp) + 500_000_000
    {
      if !card {
        return false;
      }
      sent := ResolvePeer(available);
      if !sent {
        return;
      }
      ApplySegmentGap(now);
      peer.SendVideo(CARD_INTERVAL);
      lastRTPAt := Some(now);
      loadingSent := loadingSent + CARD_INTERVAL;
      dropToIDR := true;
    }

    method ApplyLoadingHold(now: Time)
      modifies this, peer, clock
      ensures View() == LoadingPaid(LoadingTaken(old(View())), old(loadingSent), now)
      ensures loadingSent == 0 && peer.videoRtp == old(peer.videoRtp)
      ensures old(loadingSent) > 0 ==>
        peer.audioRtp == old(peer.audioRtp) + old(loadingSent) && lastRTPAt == Some(now) &&
        (clock.anchored ==> clock.wallStart == old(clock.wallStart) + old(loadingSent))
    {
      var duration := loadingSent;
      loadingSent := 0;
      if duration <= 0 {
        return;
      }
      clock.Shift(duration);
      peer.AdvanceAudio(duration);
      lastRTPAt := Some(now);
    }

    method ConsumeVideoDrop(frame: seq<byte>) returns (drop: bool)
      modifies this`dropToIDR
      ensures drop <==> old(dropToIDR) && !FrameTheorems.HasType(Frame.Split(frame), 5)
      ensures View() == old(View()).(dropToIDR := drop)
    {
      if !dropToIDR {
        return false;
      }
      var idr := FrameTheorems.H264ContainsIDR(frame);
      if idr {
        dropToIDR := false;
        return false;
      }
      return true;
    }

    method ApplyPauseEvent(ts: PauseState, now: Time)
      modifies this, peer, clock
      ensures active == old(active)
      ensures View() ==
        if active then PauseApplied(old(View()), ts.View(), now) else PauseForgotten(old(View()), ts.View())
      ensures active && old(pauseEpoch) != ts.epoch && ts.last > 0 ==>
        var paused, cards := ts.last, old(pauseSent);
        && pauseEpoch == ts.epoch && pauseSent == 0 && lastRTPAt == Some(now)
        && dropToIDR == (old(dropToIDR) || cards > 0)
        && peer.audioRtp - old(peer.audioRtp) == (if paused < cards then cards else paused)
        && peer.videoRtp - old(peer.videoRtp) == (if paused < cards then 0 else paused - cards)
        && (clock.anchored ==> clock.wallStart == old(clock.wallStart) + paused)
      ensures !active && old(pauseEpoch) != ts.epoch && ts.last > 0 ==>
        && pauseEpoch == ts.epoch && pauseSent == 0 && lastRTPAt == old(lastRTPAt)
        && dropToIDR == (old(dropToIDR) || old(pauseSent) > 0)
        && peer.audioRtp == old(peer.audioRtp) && peer.videoRtp == old(peer.videoRtp)
        && clock.wallStart == old(clock.wallStart)
    {
      var duration, epoch := ts.Event(pauseEpoch);
      if epoch == pauseEpoch {
        return;
      }
      pauseEpoch := epoch;
      if duration <= 0 {
        return;
      }
      var sent := pauseSent;
      pauseSent := 0;
      var videoGap, audioGap := duration - sent, duration;
      if videoGap < 0 {
        audioGap := audioGap - videoGap;
        videoGap := 0;
      }
      if sent > 0 {
        dropToIDR := true;
      }
      if active {
        clock.Shift(duration);
        peer.AdvanceAudio(audioGap);
        if videoGap > 0 {
          peer.AdvanceVideo(videoGap);
        }
        lastRTPAt := Some(now);
      }
    }

    /** The end of the video pump's turn: the frame goes out, or is dropped and takes its time all the same. */
    method PumpVideo(frame: seq<byte>, ptsMs: int, duration: int, now: Time) returns (sent: bool)
      modifies this, peer
      ensures !sent <==> old(dropToIDR) && !FrameTheorems.HasType(Frame.Split(frame), 5)
      ensures View() == FramePassed(old(View()).(dropToIDR := !sent), duration, now)
      ensures peer.videoRtp == old(peer.videoRtp) + duration && peer.audioRtp == old(peer.audioRtp)
      ensures lastRTPAt == Some(now) && lastVideoPTSMs == if sent then ptsMs else old(lastVideoPTSMs)
    {
      var drop := ConsumeVideoDrop(frame);
      if drop {
        peer.AdvanceVideo(duration);
        lastRTPAt := Some(now);
        return false;
      }
      peer.SendVideo(duration);
      lastVideoPTSMs := ptsMs;
      lastRTPAt := Some(now);
      return true;
    }

    /** The end of the audio pump's turn: a packet that is more than 350 ms late shifts the clock by all of it. */
    method PumpAudio(pts: Time, duration: int, now: Time)
      modifies this, peer, clock
      ensures View() == AudioSent(old(View()), pts, duration, now)
      ensures peer.audioRtp == old(peer.audioRtp) + (if duration <= 0 then 20_000_000 else duration)
      ensures peer.videoRtp == old(peer.videoRtp) && lastRTPAt == Some(now)
      ensures var late := (now - old(clock.wallStart)) - (pts - clock.ptsStart);
        clock.wallStart == if old(clock.anchored) && late > 350_000_000 then now - (pts - clock.ptsStart)
          else old(clock.wallStart)
    {
      var length := duration;
      if length <= 0 {
        length := AUDIO_FRAME;
      }
      var late := clock.LatenessOf(pts, now);
      if late > LATE_THRESHOLD {
        clock.Shift(late);
      }
      peer.SendAudio(length);
      lastRTPAt := Some(now);
    }
  }

  /** frametime of video: the time of a frame, at 30 frames a second where no rate is set. */
  method FrameTime(fps: int) returns (t: int)
    ensures fps <= 0 ==> t == 33_333_333
    ensures fps > 0 ==> t * fps <= 1_000_000_000 < (t + 1) * fps
  {
    var rate := fps;
    if rate <= 0 {
      rate := 30;
    }
    t := 1_000_000_000 / rate;
  }
}
