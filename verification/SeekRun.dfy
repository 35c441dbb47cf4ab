/**
  Seeking in progressive streams (internal/pool/pool.go:114-148, 568-612, 673-785, 884-1013 and 1426-1438):
  callers seek while the playback loop starts and ends segments, and while one stream gives way to the next.
  Steps are the sections that seekMu makes indivisible.
 */
module SeekRun {
  import opened Wrappers

  const SECOND := 1_000_000_000

  /** A place a stream may be sent to: from its start to two seconds before its end, where that is known. */
  predicate InMedium(x: int, length: Option<int>) {
    x >= 0 && (length.Some? ==> x <= if length.value < 2_000_000_000 then 0 else length.value - 2_000_000_000)
  }

  function Apart(x: int, y: int): nat {
    if x < y then y - x else x - y
  }

  /** No place in the medium is nearer to the target. */
  ghost predicate Nearest(t: int, target: int, length: Option<int>) {
    InMedium(t, length) && forall x :: InMedium(x, length) ==> Apart(t, target) <= Apart(x, target)
  }

  /** A target is kept inside the medium, two seconds clear of its end where the length is known. */
  function Clamp(target: int, length: Option<int>): (t: int)
    ensures t >= 0
    ensures length.Some? ==> t <= (if length.value - 2 * SECOND < 0 then 0 else length.value - 2 * SECOND)
    ensures Nearest(t, target, length)
    ensures t == target <==> target >= 0 && (length.Some? ==> target <= 0 || target <= length.value - 2 * SECOND)
  {
    var low := if target < 0 then 0 else target;
    if length.None? then low
    else
      var limit := if length.value - 2 * SECOND < 0 then 0 else length.value - 2 * SECOND;
      if low > limit then limit else low
  }

  // ---------------------------------------------------------------- the session's seek fields

  class Context {
    var cancelled: bool

    constructor ()
      ensures !cancelled
    {
      cancelled := false;
    }
  }

  class SessionSeek {
    var busy: bool
    var requested: bool
    var live: bool
    var unseekable: bool
    var length: Option<int>
    var pendingSeek: Option<int>
    var segment: Context?

    constructor (busy: bool, requested: bool, live: bool, unseekable: bool, length: Option<int>)
      ensures this.busy == busy && this.requested == requested && this.live == live &&
        this.unseekable == unseekable && this.length == length
      ensures pendingSeek == None && segment == null
    {
      this.busy, this.requested, this.live, this.unseekable, this.length := busy, requested, live, unseekable, length;
      pendingSeek, segment := None, null;
    }

    method SetSegmentCancel(context: Context)
      modifies this`segment
      ensures segment == context
    {
      segment := context;
    }

    method TakeSeek() returns (target: Option<int>)
      modifies this`pendingSeek
      ensures target == old(pendingSeek) && pendingSeek == None
    {
      target := pendingSeek;
      pendingSeek := None;
    }

    method SeekPending() returns (pending: bool)
      ensures pending <==> pendingSeek.Some?
    {
      pending := pendingSeek.Some?;
    }

    /** What a teardown and a release do to the seek fields. */
    method ForgetSeek()
      modifies this`pendingSeek, this`segment
      ensures pendingSeek == None && segment == null
    {
      pendingSeek, segment := None, null;
    }

    /** The clamped target, or None where the stream cannot be seeked; then nothing changes. */
    method Seek(target: int) returns (accepted: Option<int>)
      modifies this`pendingSeek, segment
      ensures accepted == if busy && requested && !live && !unseekable then Some(Clamp(target, length)) else None
      ensures accepted.Some? <==> busy && requested && !live && !unseekable
      ensures accepted.Some? ==> Nearest(accepted.value, target, length)
      ensures accepted.Some? ==> pendingSeek == accepted && (segment != null ==> segment.cancelled)
      ensures accepted.None? ==>
        pendingSeek == old(pendingSeek) && (segment != null ==> segment.cancelled == old(segment.cancelled))
    {
      if !busy || !requested || live || unseekable {
        return None;
      }
      var t := target;
      if t < 0 {
        t := 0;
      }
      if length.Some? {
        var limit := length.value - 2 * SECOND;
        if limit < 0 {
          limit := 0;
        }
        if t > limit {
          t := limit;
        }
      }
      pendingSeek := Some(t);
      if segment != null {
        segment.cancelled := true;
      }
      return Some(t);
    }
  }

  // ---------------------------------------------------------------- the run

  datatype Pc =
    | Top          // about to start a segment
    | Installed    // its context is installed, the pending check is still to come
    | MustCancel   // the check saw a pending seek
    | Inside       // past the check
    | Ended        // the segment has returned, takeSeek is still to come
    | Finished     // the loop has returned, the session still to be torn down or released
    | Releasing    // the request is gone, the seek fields are still to be cleared
    | Between      // torn down for a swap
    | Free         // released

  /**
    Seen from outside: seeks that were accepted, segments that started, where the loop turned (and to which target
    it went on, if to any), and where one stream ended and the next began.
   */
  datatype Event =
    | Accepted(target: int, length: Option<int>) | Started(offset: int) | Taken(served: Option<int>) | Fallback
    | Cleared | Opened

  datatype State = State(
    pc: Pc, busy: bool, requested: bool, length: Option<int>, pendingSeek: Option<int>, offset: int,
    cancelled: bool, installed: bool, stopped: bool, log: seq<Event>)

  datatype Step =
    | Seek(target: int)
    | Probe(length: Option<int>)   // the length becomes known, or changes
    | Stop                         // the stream is stopped or swapped
    | Loop(again: bool)            // the loop goes on; `again` decides what the code leaves open
    | Clear(swap: bool)            // the loop's end tears down for a swap, or releases
    | NextStream                   // another stream starts on the session
    | GiveUp                       // none could be started after a teardown: the caller releases the session

  predicate InLoop(pc: Pc) {
    pc.Top? || pc.Installed? || pc.MustCancel? || pc.Inside? || pc.Ended?
  }

  function DoLoop(s: State, again: bool): State {
    match s.pc
    case Top =>
      if s.stopped || !again then s.(pc := Finished)
      else s.(pc := Installed, installed := true, cancelled := s.stopped, log := s.log + [Started(s.offset)])
    case Installed => s.(pc := if s.pendingSeek.Some? then MustCancel else Inside)
    case MustCancel => s.(pc := Inside, cancelled := true)
    case Inside => s.(pc := Ended)
    case Ended =>
      var taken := s.(pendingSeek := None, log := s.log + [Taken(if s.stopped then None else s.pendingSeek)]);
      if s.stopped then taken.(pc := Finished)
      else if s.pendingSeek.Some? then taken.(pc := Top, offset := s.pendingSeek.value)
      else if again then taken.(pc := Top, offset := 0, log := taken.log + [Fallback])
      else taken.(pc := Finished)
    case _ => s
  }

  function Do(s: State, step: Step): State {
    match step
    case Probe(length) => s.(length := length)
    case Stop => if InLoop(s.pc) then s.(stopped := true, cancelled := true) else s
    case Seek(target) =>
      if !s.busy || !s.requested then s
      else
        var t := Clamp(target, s.length);
        s.(pendingSeek := Some(t), cancelled := s.cancelled || s.installed, log := s.log + [Accepted(t, s.length)])
    case Loop(again) => DoLoop(s, again)
    case Clear(swap) =>
      if s.pc == Finished && !swap then s.(pc := Releasing, requested := false)
      else if s.pc == Finished || s.pc == Releasing then
        s.(pc := if s.pc == Finished then Between else Free, busy := s.pc == Finished, pendingSeek := None,
           installed := false, stopped := false, log := s.log + [Cleared])
      else s
    case GiveUp => if s.pc == Between then s.(pc := Releasing, requested := false) else s
    case NextStream =>
      if s.pc != Between && s.pc != Free then s
      else
        s.(pc := Top, busy := true, requested := true, length := None, offset := 0, cancelled := false,
           stopped := false, log := s.log + [Opened])
  }

  function Run(s: State, steps: seq<Step>): State {
    if |steps| == 0 then s else Do(Run(s, steps[..|steps| - 1]), steps[|steps| - 1])
  }

  ghost predicate Initial(s: State) {
    && s.pc == Top && s.busy && s.requested && s.pendingSeek == None && s.offset == 0 && !s.installed && !s.stopped
    && s.log == []
  }

  // What the log promises: the last target accepted that is neither taken nor cleared, and where the next
  // segment belongs.
  function Latest(log: seq<Event>): Option<int> {
    if |log| == 0 then None
    else
      match log[|log| - 1]
      case Accepted(t, _) => Some(t)
      case Taken(_) => None
      case Cleared => None
      case _ => Latest(log[..|log| - 1])
  }

  function Due(log: seq<Event>): int {
    if |log| == 0 then 0
    else
      var before := log[..|log| - 1];
      match log[|log| - 1]
      case Taken(_) => if Latest(before).Some? then Latest(before).value else Due(before)
      case Fallback => 0
      case Opened => 0
      case _ => Due(before)
  }

  /** Every segment starts where it is due. */
  ghost predicate StartsAreDue(log: seq<Event>) {
    forall i :: 0 <= i < |log| && log[i].Started? ==> log[i].offset == Due(log[..i])
  }

  ghost predicate TargetsClamped(log: seq<Event>) {
    forall i :: 0 <= i < |log| && log[i].Accepted? ==>
      log[i].target >= 0 &&
      (log[i].length.Some? ==>
        log[i].target <= if log[i].length.value < 2 * SECOND then 0 else log[i].length.value - 2 * SECOND)
  }

  ghost predicate Kept(s: State) {
    && s.pendingSeek == Latest(s.log)
    && (InLoop(s.pc) ==> s.offset == Due(s.log) && s.busy && s.requested)
    && (s.pc == Finished || s.pc == Between ==> s.busy && s.requested)
    && (s.pc == Releasing || s.pc == Free ==> !s.requested) && (s.pc == Free ==> s.pendingSeek == None)
    && StartsAreDue(s.log) && TargetsClamped(s.log)
    && (s.pc == Installed || s.pc == MustCancel || s.pc == Inside ==> s.installed)
    && (s.pc == Inside && s.pendingSeek.Some? ==> s.cancelled)
    && (s.stopped && InLoop(s.pc) ==> s.cancelled)
    && (s.pc == Between || s.pc == Free ==> !s.stopped)
  }

  lemma LogStep(log: seq<Event>, e: Event)
    ensures Latest(log + [e]) == match e {
      case Accepted(t, _) => Some(t)
      case Taken(_) => None
      case Cleared => None
      case _ => Latest(log) }
    ensures Due(log + [e]) == match e {
      case Taken(_) => if Latest(log).Some? then Latest(log).value else Due(log)
      case Fallback => 0
      case Opened => 0
      case _ => Due(log) }
  {
    assert (log + [e])[..|log|] == log;
  }

  lemma DueStep(log: seq<Event>, e: Event)
    requires StartsAreDue(log) && TargetsClamped(log)
    requires e.Started? ==> e.offset == Due(log)
    requires e.Accepted? ==> exists target :: e.target == Clamp(target, e.length)
    ensures StartsAreDue(log + [e]) && TargetsClamped(log + [e])
  {
    hide Due;
    forall i | 0 <= i < |log + [e]| && (log + [e])[i].Started? ensures (log + [e])[i].offset == Due((log + [e])[..i]) {
      assert (log + [e])[..i] == if i < |log| then log[..i] else log;
    }
  }

  lemma KeptStep(s: State, step: Step)
    requires Kept(s)
    ensures Kept(Do(s, step))
  {
    hide Latest, Due, StartsAreDue, TargetsClamped;
    match step
    case Seek(target) =>
      var e := Accepted(Clamp(target, s.length), s.length);
      LogStep(s.log, e);
      DueStep(s.log, e);
    case Loop(again) =>
      if s.pc == Top {
        LogStep(s.log, Started(s.offset));
        DueStep(s.log, Started(s.offset));
      } else if s.pc == Ended {
        var taken := Taken(if s.stopped then None else s.pendingSeek);
        LogStep(s.log, taken);
        DueStep(s.log, taken);
        LogStep(s.log + [taken], Fallback);
        DueStep(s.log + [taken], Fallback);
      }
    case Clear(_) =>
      LogStep(s.log, Cleared);
      DueStep(s.log, Cleared);
    case NextStream =>
      LogStep(s.log, Opened);
      DueStep(s.log, Opened);
    case _ =>
  }

  lemma {:induction false} AlwaysKept(s: State, steps: seq<Step>)
    requires Initial(s)
    ensures Kept(Run(s, steps))
  {
    hide Do;
    if |steps| > 0 {
      AlwaysKept(s, steps[..|steps| - 1]);
      KeptStep(Run(s, steps[..|steps| - 1]), steps[|steps| - 1]);
    }
  }

  /** In every interleaving a seek that meets a running segment has cancelled that segment's context. */
  lemma PendingMeansCancelled(s: State, steps: seq<Step>)
    requires Initial(s)
    ensures var e := Run(s, steps); e.pc == Inside && e.pendingSeek.Some? ==> e.installed && e.cancelled
  {
    hide Run;
    AlwaysKept(s, steps);
  }

  /**
    Every segment of every stream starts at the latest target accepted, and neither taken nor cleared, before the
    loop turned, and every target is clamped.
   */
  lemma SegmentsStartWhereSought(s: State, steps: seq<Step>)
    requires Initial(s)
    ensures StartsAreDue(Run(s, steps).log) && TargetsClamped(Run(s, steps).log)
  {
    hide Run;
    AlwaysKept(s, steps);
  }

  /** Whatever was accepted last while the segment ran is where the loop goes next, unless the stream was stopped. */
  lemma SeekIsServed(s: State, steps: seq<Step>, again: bool)
    requires Initial(s)
    ensures var e := Run(s, steps);
      e.pc == Ended && !e.stopped && Latest(e.log).Some? ==>
        var t := Do(e, Loop(again)); t.pc == Top && t.offset == Latest(e.log).value && t.pendingSeek == None
  {
    hide Run, Latest, Due;
    AlwaysKept(s, steps);
  }

  // ---------------------------------------------------------------- when a seek is served

  /** Nobody seeks again or stops the stream, every source can be opened, and no swap is given up. */
  predicate Undisturbed(steps: seq<Step>) {
    forall k :: 0 <= k < |steps| ==> Quiet(steps[k])
  }

  predicate Quiet(step: Step) {
    match step
    case Seek(_) => false
    case Stop => false
    case GiveUp => false
    case Loop(again) => again
    case _ => true
  }

  /** A loop is or will be there to take the seek: the stream is not stopped and its loop has not returned. */
  predicate Attended(s: State) {
    s.pc != Finished && s.pc != Releasing && !s.stopped
  }

  /** Since the log was `base`, the loop has gone on to t. */
  ghost predicate Served(base: nat, log: seq<Event>, t: int) {
    exists i :: base <= i < |log| && log[i] == Taken(Some(t))
  }

  /** A seek to t was accepted when the log was `base`, by a session that attended to it or not. */
  ghost predicate Fate(s: State, base: nat, t: int, attended: bool) {
    && |s.log| >= base
    && (s.pendingSeek.Some? ==> s.pendingSeek == Some(t) && (Attended(s) <==> attended) && !Served(base, s.log, t))
    && (s.pendingSeek.None? ==> (Served(base, s.log, t) <==> attended))
    && (s.pc == Between || s.pc == Free ==> !s.stopped) && (s.pc == Free ==> s.pendingSeek == None)
  }

  lemma ServedMore(base: nat, log: seq<Event>, t: int, e: Event)
    requires base <= |log|
    ensures Served(base, log + [e], t) <==> Served(base, log, t) || e == Taken(Some(t))
  {
    if Served(base, log, t) {
      var i :| base <= i < |log| && log[i] == Taken(Some(t));
      assert (log + [e])[i] == log[i];
    }
    if e == Taken(Some(t)) {
      assert (log + [e])[|log|] == e;
    }
  }

  lemma FateStep(s: State, step: Step, base: nat, t: int, attended: bool)
    requires Fate(s, base, t, attended) && Quiet(step)
    ensures Fate(Do(s, step), base, t, attended)
  {
    hide Served;
    match step
    case Loop(again) =>
      if s.pc == Top {
        ServedMore(base, s.log, t, Started(s.offset));
      } else if s.pc == Ended {
        var taken := Taken(if s.stopped then None else s.pendingSeek);
        ServedMore(base, s.log, t, taken);
        ServedMore(base, s.log + [taken], t, Fallback);
      }
    case Clear(_) => ServedMore(base, s.log, t, Cleared);
    case NextStream => ServedMore(base, s.log, t, Opened);
    case _ =>
  }

  lemma {:induction false} FateRun(s: State, steps: seq<Step>, base: nat, t: int, attended: bool)
    requires Fate(s, base, t, attended) && Undisturbed(steps)
    ensures Fate(Run(s, steps), base, t, attended)
  {
    hide Do, Fate, Quiet;
    if |steps| > 0 {
      FateRun(s, steps[..|steps| - 1], base, t, attended);
      FateStep(Run(s, steps[..|steps| - 1]), steps[|steps| - 1], base, t, attended);
    }
  }

  /**
    An accepted seek, undisturbed until it no longer waits, is served (the loop goes on at its target) if and only
    if it was accepted before the loop's return, or after a teardown, by a stream that was not stopped.
   */
  lemma ServedIffAttended(s: State, steps: seq<Step>, target: int, more: seq<Step>)
    requires Initial(s) && Run(s, steps).busy && Run(s, steps).requested && Undisturbed(more)
    requires Run(Do(Run(s, steps), Seek(target)), more).pendingSeek == None
    ensures var e := Run(s, steps);
      Served(|e.log| + 1, Run(Do(e, Seek(target)), more).log, Clamp(target, e.length)) <==> Attended(e)
  {
    hide Run, Undisturbed;
    AlwaysKept(s, steps);
    var e := Run(s, steps);
    FateRun(Do(e, Seek(target)), more, |e.log| + 1, Clamp(target, e.length), Attended(e));
  }

  /** Steps until a seek no longer waits. */
  function Distance(pc: Pc): nat {
    match pc
    case Ended => 1
    case Inside => 2
    case MustCancel => 3
    case Installed => 4
    case Top => 5
    case Between => 6
    case Releasing => 1
    case Finished => 1
    case Free => 0
  }

  function Onward(pc: Pc): Step {
    match pc
    case Between => NextStream
    case Free => NextStream
    case Finished => Clear(true)
    case Releasing => Clear(true)
    case _ => Loop(true)
  }

  /** It does not wait for ever: an undisturbed run of a few steps settles it. */
  lemma {:induction false} SeekIsSettled(s: State) returns (more: seq<Step>)
    requires s.pc == Free ==> s.pendingSeek == None
    ensures Undisturbed(more) && Run(s, more).pendingSeek == None
    decreases if s.pendingSeek == None then 0 else Distance(s.pc)
  {
    if s.pendingSeek == None {
      more := [];
    } else {
      var step := Onward(s.pc);
      assert Quiet(step);
      var rest := SeekIsSettled(Do(s, step));
      more := [step] + rest;
      First(s, step, rest);
    }
  }

  lemma {:induction false} First(s: State, step: Step, rest: seq<Step>)
    ensures Run(s, [step] + rest) == Run(Do(s, step), rest)
  {
    hide Do;
    if |rest| == 0 {
      assert [step] + rest == [step] && [step][..0] == [];
    } else {
      First(s, step, rest[..|rest| - 1]);
      assert ([step] + rest)[..|rest|] == [step] + rest[..|rest| - 1];
    }
  }

  /** A segment that plays to its end, and the loop's return. */
  const PLAYED := [Loop(true), Loop(true), Loop(true), Loop(false)]

  lemma PlaysToEnd(s: State)
    requires Initial(s)
    ensures var e := Run(s, PLAYED); e.pc == Finished && e.busy && e.requested && !e.stopped && e.pendingSeek == None
  {
    hide Run;
    First(s, Loop(true), [Loop(true), Loop(true), Loop(false)]);
    assert PLAYED == [Loop(true)] + [Loop(true), Loop(true), Loop(false)];
    var s1 := Do(s, Loop(true));
    First(s1, Loop(true), [Loop(true), Loop(false)]);
    assert [Loop(true), Loop(true), Loop(false)] == [Loop(true)] + [Loop(true), Loop(false)];
    var s2 := Do(s1, Loop(true));
    First(s2, Loop(true), [Loop(false)]);
    assert [Loop(true), Loop(false)] == [Loop(true)] + [Loop(false)];
    var s3 := Do(s2, Loop(true));
    First(s3, Loop(false), []);
    assert [Loop(false)] == [Loop(false)] + [];
    Nowhere(Do(s3, Loop(false)));
  }

  lemma Nowhere(s: State)
    ensures Run(s, []) == s
  {
  }

  /** After the loop's return a seek is still accepted, and whatever follows undisturbed it is not served. */
  lemma SeekAfterLastTurn(s: State, target: int, more: seq<Step>)
    requires Initial(s) && Undisturbed(more)
    ensures var e := Run(s, PLAYED); var t := Clamp(target, e.length);
      && Do(e, Seek(target)).pendingSeek == Some(t)
      && !Served(|e.log| + 1, Run(Do(e, Seek(target)), more).log, t)
  {
    hide Run, Undisturbed;
    PlaysToEnd(s);
    AlwaysKept(s, PLAYED);
    var e := Run(s, PLAYED);
    FateRun(Do(e, Seek(target)), more, |e.log| + 1, Clamp(target, e.length), false);
  }

  /** After a teardown for a swap a seek is accepted too, and the stream that is swapped in goes to its target. */
  lemma SeekAfterTeardownLeaks(s: State, target: int, more: seq<Step>)
    requires Initial(s) && Undisturbed(more)
    requires Run(Do(Do(Run(s, PLAYED), Clear(true)), Seek(target)), more).pendingSeek == None
    ensures var e := Do(Run(s, PLAYED), Clear(true));
      Served(|e.log| + 1, Run(Do(e, Seek(target)), more).log, Clamp(target, e.length))
  {
    hide Run, Undisturbed;
    PlaysToEnd(s);
    AlwaysKept(s, PLAYED);
    KeptStep(Run(s, PLAYED), Clear(true));
    var e := Do(Run(s, PLAYED), Clear(true));
    FateRun(Do(e, Seek(target)), more, |e.log| + 1, Clamp(target, e.length), true);
  }
}
