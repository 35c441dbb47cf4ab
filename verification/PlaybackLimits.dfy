/**
  What a run can do that breaks an expected law of playback: when the audio pump overtakes a pause card, a frame
  passes the key frame gate; when a pause ends before the one before it was applied, clock time is lost.
 */
module PlaybackLimits {
  import opened Wrappers
  import opened Playback
  import opened PlaybackRun

  /** The pump goes on, with a packet that holds no key frame whenever it fetches one. */
  const GO := Choice(false, true, false, Packet(0, 0, false))

  // ---------------------------------------------------------------- after an overtaken card

  /** A card is on its way or has gone out, and nothing will call for the key frame it needs. */
  predicate Doomed(s: State) {
    && !s.ts.paused && s.ts.epoch == s.sender.pauseEpoch && !s.sender.dropToIDR && !HoldsKey(s.video)
    && (s.owesIDR || PauseCardInFlight(s.video))
    && match s.video.pc
       case Stopped => false
       case Gap(use) => use != ForLoadingCard
       case GapAudio(use) => use != ForLoadingCard
       case GapVideo(use) => use != ForLoadingCard
       case Card(loading, _) => !loading
       case Book(loading, _) => !loading && s.owesIDR
       case Emit(drop) => !drop && !s.video.packet.idr
       case _ => true
  }

  /** Steps from the packet in hand to its emission. */
  function ToEmission(pc: Pc): nat {
    match pc
    case Emit(_) => 0
    case Gate => 1
    case PayLoading => 2
    case Loading => 3
    case GapVideo(use) => BeforeUse(use) + 1
    case GapAudio(use) => BeforeUse(use) + 2
    case Gap(use) => BeforeUse(use) + 3
    case WaitClock => 7
    case Apply(second) => if second then 8 else 18
    case Hold(second) => if second then 9 else 19
    case CardCheck(second) => if second then 10 else 20
    case Book(_, second) => if second then 11 else 21
    case Card(_, second) => if second then 12 else 22
    case Fetch => 17
    case Stopped => 0
  }

  function BeforeUse(use: Use): nat {
    match use
    case ForPacket => 3
    case ForPauseCard(second) => if second then 12 else 22
    case ForLoadingCard => 0
  }

  predicate Emits(s: State) {
    s.video.pc == Emit(false) && s.owesIDR && !s.video.packet.idr
  }

  /** The video pump alone carries its next frame to the wire. */
  lemma DoomedStep(s: State)
    requires Doomed(s)
    ensures Emits(s) ||
      (Doomed(Do(s, VideoStep(GO))) && ToEmission(Do(s, VideoStep(GO)).video.pc) < ToEmission(s.video.pc)
       && Do(s, VideoStep(GO)).violations == s.violations)
  {
    hide DoAnchor, DoPay, DoApply;
    AnchorKeeps(s, s.video.packet.pts);
    PayKeeps(s, s.video.hold);
    NothingToApply(s);
  }

  lemma NothingToApply(s: State)
    requires s.ts.epoch == s.sender.pauseEpoch
    ensures DoApply(s) == s
  {
  }

  lemma EmitsViolates(s: State)
    requires Emits(s)
    ensures Do(s, VideoStep(GO)).violations == s.violations + 1
  {
  }

  /** The video pump, n steps on its own. */
  function Video(n: nat): seq<Step> {
    seq(n, i => VideoStep(GO))
  }

  lemma VideoFirst(s: State, n: nat)
    ensures Run(s, Video(n + 1)) == Run(Do(s, VideoStep(GO)), Video(n))
  {
    hide Do, Run;
    RunConcat(s, [VideoStep(GO)], Video(n));
    assert [VideoStep(GO)] + Video(n) == Video(n + 1);
    Run1(s, VideoStep(GO));
  }

  lemma Run1(s: State, a: Step)
    ensures Run(s, [a]) == Do(s, a)
  {
    assert [a][..0] == [];
  }

  lemma {:induction false} DoomedViolates(s: State) returns (n: nat)
    requires Doomed(s)
    ensures Run(s, Video(n)).violations == s.violations + 1
    decreases ToEmission(s.video.pc)
  {
    hide Do, Run, Doomed, Emits;
    DoomedStep(s);
    if Emits(s) {
      EmitsViolates(s);
      assert Video(1) == [VideoStep(GO)];
      Run1(s, VideoStep(GO));
      n := 1;
    } else {
      n := DoomedViolates(Do(s, VideoStep(GO)));
      VideoFirst(s, n);
      n := n + 1;
    }
  }

  /** Pauses that ended took time, and a card that went out calls for a key frame. */
  predicate Sound(s: State) {
    (s.ts.epoch > 0 ==> s.ts.last > 0) && (s.video.pc.Book? ==> s.owesIDR)
    && s.pool.paused == s.ts.paused
  }

  lemma SoundStep(s: State, step: Step)
    requires Sound(s) && TimePasses(s, step)
    ensures Sound(Do(s, step))
  {
    hide DoVideo, DoAudio;
    match step
    case VideoStep(c) => SoundVideo(s, c);
    case AudioStep(c) => SoundAudio(s, c);
    case _ =>
  }

  lemma SoundVideo(s: State, c: Choice)
    requires Sound(s)
    ensures Sound(DoVideo(s, c))
  {
    hide PauseApplied, GapOf, LoadingPaid;
  }

  lemma SoundAudio(s: State, c: Choice)
    requires Sound(s)
    ensures Sound(DoAudio(s, c))
  {
    hide PauseApplied, GapOf, LoadingPaid, Lateness;
  }

  lemma {:induction false} AlwaysSound(s: State, steps: seq<Step>)
    requires Initial(s) && TimelyRun(s, steps)
    ensures Sound(Run(s, steps))
  {
    hide Do, TimePasses, Sound;
    if |steps| == 0 {
      InitiallySound(s);
    } else {
      var init := steps[..|steps| - 1];
      assert forall k :: 0 <= k < |init| ==> init[..k] == steps[..k];
      AlwaysSound(s, init);
      SoundStep(Run(s, init), steps[|steps| - 1]);
    }
  }

  lemma InitiallySound(s: State)
    requires Initial(s)
    ensures Sound(s)
  {
  }

  lemma OvertakenIsDoomed(s: State, step: Step)
    requires Overtakes(s, step) && Sound(s) && s.sender.pauseEpoch <= s.ts.epoch
    ensures Doomed(Do(s, step)) && Do(s, step).violations == s.violations
  {
    EmptyPause(s.sender, s.ts, s.now);
    hide PauseApplied;
  }

  lemma EmptyPause(s: Sender, p: PauseInfo, now: Time)
    requires p.epoch != s.pauseEpoch && p.last > 0 && s.pauseSent == 0 && !s.dropToIDR
    ensures PauseApplied(s, p, now).pauseEpoch == p.epoch && !PauseApplied(s, p, now).dropToIDR
  {
  }

  /**
    The converse of NoFrameBeforeKeyFrame: from every reachable state in which the audio pump overtakes a card, the
    video pump by itself goes on to send a frame that no key frame precedes.
   */
  lemma OvertakingViolates(s: State, steps: seq<Step>, step: Step) returns (n: nat)
    requires Initial(s) && TimelyRun(s, steps) && Overtakes(Run(s, steps), step)
    ensures Run(s, steps + [step] + Video(n)).violations == Run(s, steps).violations + 1
  {
    hide Do, Run, Overtakes, Doomed, Sound;
    var e := Run(s, steps);
    AlwaysSound(s, steps);
    PausesAlwaysCounted(s, steps);
    OvertakenIsDoomed(e, step);
    n := DoomedViolates(Do(e, step));
    RunConcat(s, steps, [step]);
    Run1(e, step);
    RunConcat(s, steps + [step], Video(n));
  }

  // ---------------------------------------------------------------- a run that overtakes

  const V := VideoStep(GO)
  const A := AudioStep(GO)

  lemma Three(s: State, steps: seq<Step>, a: Step, b: Step, c: Step)
    ensures Run(s, steps + [a, b, c]) == Do(Do(Do(Run(s, steps), a), b), c)
  {
    hide Do, Run;
    RunConcat(s, steps, [a, b, c]);
    var t := Run(s, steps);
    RunConcat(t, [a], [b]);
    RunConcat(t, [a, b], [c]);
    assert [a] + [b] == [a, b] && [a, b] + [c] == [a, b, c];
    Run1(t, a);
    Run1(Do(t, a), b);
    Run1(Do(Do(t, a), b), c);
  }

  lemma Nothing(s: State)
    ensures Run(s, []) == s
  {
  }

  /** A pause card is asked for, the pause ends, and the audio pump is about to apply it. */
  const OVERTAKING := [NewSegment(0), Pause, V] + [V, Tick(1), Resume] + [A]

  /** The gate can be passed: a run from any initial state ends in a frame without the key frame it needs. */
  lemma LateCardPassesGate(s: State) returns (n: nat)
    requires Initial(s)
    ensures Overtakes(Run(s, OVERTAKING), A)
    ensures Run(s, OVERTAKING + [A] + Video(n)).violations == 1
  {
    ToOvertaking(s);
    hide Overtakes, Do, Run;
    n := OvertakingViolates(s, OVERTAKING, A);
  }

  lemma ToOvertaking(s: State)
    requires Initial(s)
    ensures Overtakes(Run(s, OVERTAKING), A) && Run(s, OVERTAKING).violations == 0 && TimelyRun(s, OVERTAKING)
  {
    hide Run;
    var first := [NewSegment(0), Pause, V];
    Nothing(s);
    Three(s, [], NewSegment(0), Pause, V);
    assert [] + first == first;
    var t := Run(s, first);
    assert t.ts == PauseInfo(true, s.now, 0, 0) && t.video.pc == CardCheck(false) && t.audio.pc == Hold(false);
    var second := first + [V, Tick(1), Resume];
    Three(s, first, V, Tick(1), Resume);
    var u := Run(s, second);
    assert u.ts == PauseInfo(false, 0, 1, 1) && u.video.pc == Gap(ForPauseCard(false)) && u.audio.pc == Hold(false);
    RunConcat(s, second, [A]);
    Run1(u, A);
    forall k | 0 <= k < |OVERTAKING| ensures TimePasses(Run(s, OVERTAKING[..k]), OVERTAKING[k]) {
      if OVERTAKING[k] == Resume {
        assert OVERTAKING[..k] == first + [V, Tick(1)];
        RunConcat(s, first, [V, Tick(1)]);
        RunConcat(t, [V], [Tick(1)]);
        Run1(t, V);
        Run1(Do(t, V), Tick(1));
        assert [V] + [Tick(1)] == [V, Tick(1)];
      }
    }
  }

  // ---------------------------------------------------------------- an overwritten pause

  /** The audio pump fetches its first packet, and the clock is anchored. */
  const ANCHORING := [NewSegment(0), A, A] + [A, A, A] + [A]

  /** Two pauses of one nanosecond each, both over before a pump has looked; then the video pump does. */
  const OVERWRITING := [Pause, Tick(1), Resume] + [Pause, Tick(1), Resume] + [V, V]

  predicate AnchoredAt(s: State, wallStart: Time) {
    && s.sender.clock == Clock(true, wallStart, 0) && s.holdShift == 0 && s.pausedTotal == 0
    && s.now == wallStart && s.ts == PauseInfo(false, 0, 0, 0) && !s.pool.paused && s.sender.pauseEpoch == 0
    && s.video.pc == Hold(false)
  }

  lemma Anchors(s: State)
    requires Initial(s)
    ensures AnchoredAt(Run(s, ANCHORING), s.now)
  {
    hide Run;
    var first := [NewSegment(0), A, A];
    Nothing(s);
    Three(s, [], NewSegment(0), A, A);
    assert [] + first == first;
    var t := Run(s, first);
    assert t.audio.pc == Fetch && t.ts == PauseInfo(false, 0, 0, 0) && t.video.pc == Hold(false);
    var second := first + [A, A, A];
    Three(s, first, A, A, A);
    var u := Run(s, second);
    assert u.audio.pc == WaitClock && u.audio.packet == GO.packet && u.ts == PauseInfo(false, 0, 0, 0);
    RunConcat(s, second, [A]);
    Run1(u, A);
  }

  lemma SecondReplacesFirst(s: State, wallStart: Time)
    requires AnchoredAt(s, wallStart)
    ensures var e := Run(s, OVERWRITING);
      && e.sender.clock == Clock(true, wallStart + 1, 0) && e.holdShift == 0
      && e.pausedTotal == 2 && Pending(e) == 0
  {
    hide Run;
    var first := [Pause, Tick(1), Resume];
    Nothing(s);
    Three(s, [], Pause, Tick(1), Resume);
    assert [] + first == first;
    var t := Run(s, first);
    assert t.ts == PauseInfo(false, 0, 1, 1) && !t.pool.paused && t.now == wallStart + 1 && t.pausedTotal == 1;
    assert t.sender == s.sender && t.video == s.video;
    var second := first + [Pause, Tick(1), Resume];
    Three(s, first, Pause, Tick(1), Resume);
    var u := Run(s, second);
    assert u.ts == PauseInfo(false, 0, 1, 2) && u.pausedTotal == 2 && u.sender == s.sender && u.video == s.video;
    RunConcat(s, second, [V, V]);
    RunConcat(u, [V], [V]);
    assert [V] + [V] == [V, V];
    Run1(u, V);
    Run1(Do(u, V), V);
  }

  /** Two nanoseconds are paused, and the anchored clock moves by one: the second pause only. */
  lemma OverwrittenPauseIsLost(s: State)
    requires Initial(s)
    ensures var a, b := Run(s, ANCHORING), Run(s, ANCHORING + OVERWRITING);
      && a.sender.clock.anchored && b.sender.clock.anchored && b.holdShift == a.holdShift
      && Pending(a) == 0 && Pending(b) == 0
      && b.pausedTotal - a.pausedTotal == 2
      && b.sender.clock.wallStart - a.sender.clock.wallStart == 1
  {
    hide Run;
    Anchors(s);
    SecondReplacesFirst(Run(s, ANCHORING), s.now);
    RunConcat(s, ANCHORING, OVERWRITING);
  }
}
