/** The call-status state machine and the playback scheduler of the voice call,
    as values: one function per event handler of the live session, the
    invariant the scheduler keeps, and what runs of events guarantee.

    Each handler runs to completion as one step. The clock reading `now` of a
    received message is the output audio context's `currentTime`. */
module CallModel {
  import opened Wrappers
  import Pcm

  datatype Status = Connecting | Listening | Speaking | Error

  /** Sample rate of the output audio context and of every received chunk. */
  const OutputSampleRate: nat := 24000

  /** One `source.start(when)` on the output device: the clock reading when the
      chunk was scheduled, the start time handed to the device, and the
      duration of the decoded buffer. */
  datatype Slot = Slot(requestedAt: real, start: real, duration: real) {
    function End(): real { start + duration }
  }

  /** The state the handlers share. A source's id is its index in `started`. */
  datatype Session = Session(
    status: Status,      // the status shown to the user
    nextStart: real,     // when the next chunk may start (`nextStartTimeRef`)
    active: set<nat>,    // sources started and not yet ended (`sourcesRef`)
    started: seq<Slot>,  // every source started so far, in order
    mounted: bool,       // the effect's liveness flag
    capturing: bool)     // the microphone processor is installed

  /** A server message: the first part's inline audio (after base64 decoding)
      and the interruption flag. */
  datatype Message = Message(audio: Option<string>, interrupted: bool)

  datatype Event =
    | Opened
    | Received(message: Message, now: real)
    | Ended(id: nat)
    | Closed
    | Errored
    | SetupFailed
    | Unmounted

  function Initial(): Session
  {
    Session(Connecting, 0.0, {}, [], true, false)
  }

  function Max(a: real, b: real): (m: real)
    ensures m >= a && m >= b && (m == a || m == b)
  {
    if a >= b then a else b
  }

  /** What the scheduler guarantees between events: every started source began
      no earlier than the clock reading it was scheduled at and has a
      non-negative duration; active sources follow one another without overlap
      (in id order) and all end by `nextStart`; the microphone is only
      processed while mounted. */
  ghost predicate Valid(s: Session)
    ensures Valid(s) ==> forall a, b :: a in s.active && b in s.active && a != b ==>
      && a < |s.started| && b < |s.started|
      && (s.started[a].End() <= s.started[b].start || s.started[b].End() <= s.started[a].start)
    ensures Valid(s) ==> forall id :: id in s.active ==>
      id < |s.started| && s.started[id].start <= s.nextStart
  {
    && (forall i :: 0 <= i < |s.started| ==>
          s.started[i].duration >= 0.0 && s.started[i].start >= s.started[i].requestedAt)
    && (forall id :: id in s.active ==> id < |s.started| && s.started[id].End() <= s.nextStart)
    && (forall a, b :: a in s.active && b in s.active && a < b ==> s.started[a].End() <= s.started[b].start)
    && (s.capturing ==> s.mounted)
  }

  // ---------------------------------------------------------------------------
  // Handlers
  // ---------------------------------------------------------------------------

  /** `onopen`: start listening and install the microphone processor. */
  function OnOpen(s: Session): (t: Session)
    ensures !s.mounted ==> t == s
    ensures s.mounted ==> t.status == Listening && t.capturing
    ensures t.nextStart == s.nextStart && t.active == s.active && t.started == s.started
    ensures t.mounted == s.mounted
    ensures Valid(s) ==> Valid(t)
  {
    if !s.mounted then s else s.(status := Listening, capturing := true)
  }

  predicate HasAudio(m: Message)
  {
    m.audio.Some? && m.audio.value != []
  }

  /** The buffer a received payload decodes to: mono at the output rate. */
  function DecodeChunk(payload: string): Result<Pcm.AudioData, Pcm.DecodeError>
  {
    Pcm.DecodeAudio(Pcm.DecodeBinary(payload), OutputSampleRate, 1)
  }

  /** The awaited decode throws, so the handler stops half-way. */
  predicate Aborts(m: Message)
  {
    HasAudio(m) && DecodeChunk(m.audio.value).Failure?
  }

  /** The audio part of `onmessage`: mark speaking, catch `nextStart` up with the
      clock, then (once decoded) start a new source there and move `nextStart`
      to its end. */
  function AfterAudio(s: Session, m: Message, now: real): (t: Session)
    ensures !HasAudio(m) ==> t == s
    ensures HasAudio(m) ==> t.status == Speaking && t.nextStart >= now
    ensures s.nextStart <= t.nextStart
    ensures s.started <= t.started
    ensures |t.started| == |s.started| + (if HasAudio(m) && !Aborts(m) then 1 else 0)
    ensures t.active == s.active + (if |t.started| > |s.started| then {|s.started|} else {})
    ensures t.mounted == s.mounted && t.capturing == s.capturing
  {
    if !HasAudio(m) then s
    else
      var caughtUp := s.(status := Speaking, nextStart := Max(s.nextStart, now));
      match DecodeChunk(m.audio.value)
      case Failure(_) => caughtUp
      case Success(buffer) =>
        var slot := Slot(now, caughtUp.nextStart, buffer.Duration());
        caughtUp.(nextStart := slot.End(),
                  active := caughtUp.active + {|caughtUp.started|},
                  started := caughtUp.started + [slot])
  }

  /** The interruption part of `onmessage`. */
  function Flush(s: Session): (t: Session)
    ensures t.active == {} && t.nextStart == 0.0 && t.status == Listening
    ensures t.started == s.started && t.mounted == s.mounted && t.capturing == s.capturing
    ensures Valid(s) ==> Valid(t)
  {
    s.(active := {}, nextStart := 0.0, status := Listening)
  }

  /** `onmessage`: the audio part, then (unless that threw) the interruption. */
  function OnMessage(s: Session, m: Message, now: real): (t: Session)
    ensures !s.mounted ==> t == s
    ensures s.mounted && Aborts(m) ==> t.status == Speaking && t.nextStart >= now && t.started == s.started
    ensures s.mounted && m.interrupted && !Aborts(m) ==>
      t.active == {} && t.nextStart == 0.0 && t.status == Listening
    ensures s.started <= t.started && |t.started| <= |s.started| + 1
    ensures t.mounted == s.mounted && t.capturing == s.capturing
  {
    if !s.mounted then s
    else if Aborts(m) || !m.interrupted then AfterAudio(s, m, now)
    else Flush(AfterAudio(s, m, now))
  }

  /** The sources `onmessage` calls `stop()` on. */
  function Stopped(s: Session, m: Message, now: real): (stopped: set<nat>)
    ensures stopped != {} ==> s.mounted && m.interrupted && !Aborts(m)
    ensures s.mounted && m.interrupted && !Aborts(m) ==> s.active <= stopped
    ensures stopped <= s.active + {|s.started|}
  {
    if s.mounted && !Aborts(m) && m.interrupted then AfterAudio(s, m, now).active else {}
  }

  /** A source's `ended` listener (which does not look at the liveness flag). */
  function OnEnded(s: Session, id: nat): (t: Session)
    ensures id !in t.active && t.active == s.active - {id}
    ensures t.active == {} ==> t.status == Listening
    ensures t.active != {} ==> t.status == s.status
    ensures t == s.(active := t.active, status := t.status)
    ensures Valid(s) ==> Valid(t)
  {
    var rest := s.active - {id};
    s.(active := rest, status := if |rest| == 0 then Listening else s.status)
  }

  /** `onclose`. */
  function OnClose(s: Session): (t: Session)
    ensures s.mounted ==> t.status == Connecting
    ensures t == s.(status := t.status)
    ensures !s.mounted ==> t == s
    ensures Valid(s) ==> Valid(t)
  {
    if s.mounted then s.(status := Connecting) else s
  }

  /** `onerror`. */
  function OnError(s: Session): (t: Session)
    ensures s.mounted ==> t.status == Error
    ensures t == s.(status := t.status)
    ensures !s.mounted ==> t == s
    ensures Valid(s) ==> Valid(t)
  {
    if s.mounted then s.(status := Error) else s
  }

  /** The `catch` around the session setup. */
  function OnSetupFailure(s: Session): (t: Session)
    ensures t.status == Error
    ensures t == s.(status := t.status)
    ensures Valid(s) ==> Valid(t)
  {
    s.(status := Error)
  }

  /** The effect's cleanup: clear the liveness flag and disconnect the
      microphone processor. */
  function Unmount(s: Session): (t: Session)
    ensures !t.mounted && !t.capturing
    ensures t == s.(mounted := t.mounted, capturing := t.capturing)
    ensures Valid(s) ==> Valid(t)
  {
    s.(mounted := false, capturing := false)
  }

  /** Whether the microphone processor hands a captured frame to the session. */
  predicate SendsFrame(s: Session, muted: bool): (sends: bool)
    ensures sends ==> s.mounted && !muted
    ensures sends ==> s.capturing
  {
    s.capturing && s.mounted && !muted
  }

  function Step(s: Session, e: Event): Session
  {
    match e
    case Opened => OnOpen(s)
    case Received(m, now) => OnMessage(s, m, now)
    case Ended(id) => OnEnded(s, id)
    case Closed => OnClose(s)
    case Errored => OnError(s)
    case SetupFailed => OnSetupFailure(s)
    case Unmounted => Unmount(s)
  }

  function Run(s: Session, events: seq<Event>): Session
    decreases |events|
  {
    if events == [] then s else Run(Step(s, events[0]), events[1..])
  }

  predicate Interrupts(e: Event)
  {
    e.Received? && e.message.interrupted
  }

  /** A received chunk whose decode throws. */
  predicate AbortsChunk(e: Event)
  {
    e.Received? && Aborts(e.message)
  }

  /** An event that neither starts a source nor ends the effect: open, a
      message without audio, a source's end, close, error, a setup failure. */
  predicate Quiet(e: Event)
  {
    || e.Opened? || e.Ended? || e.Closed? || e.Errored? || e.SetupFailed?
    || (e.Received? && !HasAudio(e.message))
  }

  // ---------------------------------------------------------------------------
  // One step
  // ---------------------------------------------------------------------------

  lemma InitialIsValid()
    ensures Valid(Initial()) && Initial().status == Connecting && Initial().active == {}
  {
  }

  /** A chunk that decodes starts at the later of `nextStart` and the clock (so
      exactly at `nextStart` while the clock has not caught up), lasts one
      sample period per 16-bit code, and moves `nextStart` to its end. */
  lemma ScheduleChunk(s: Session, m: Message, now: real)
    requires HasAudio(m) && !Aborts(m)
    ensures var t := AfterAudio(s, m, now);
      && |t.started| == |s.started| + 1
      && t.started[..|s.started|] == s.started
      && var slot := t.started[|s.started|];
      && slot.requestedAt == now
      && slot.start == Max(s.nextStart, now)
      && slot.start >= now && slot.start >= s.nextStart
      && (now <= s.nextStart ==> slot.start == s.nextStart)
      && slot.duration == (|m.audio.value| / 2) as real / OutputSampleRate as real
      && t.nextStart == slot.End()
      && t.active == s.active + {|s.started|}
      && t.status == Speaking
    ensures s.mounted && !m.interrupted ==> OnMessage(s, m, now) == AfterAudio(s, m, now)
  {
    var t := AfterAudio(s, m, now);
    assert t.started[..|s.started|] == s.started;
  }

  /** A chunk whose decode throws leaves the status speaking and `nextStart`
      caught up with the clock, starts nothing, and skips the interruption the
      same message carries. */
  lemma DecodeFailureStopsHandler(s: Session, m: Message, now: real)
    requires s.mounted && Aborts(m)
    ensures var t := OnMessage(s, m, now);
      t == s.(status := Speaking, nextStart := Max(s.nextStart, now))
    ensures Stopped(s, m, now) == {}
  {
  }

  /** An interruption stops every active source (the one the same message just
      started included), empties the active set, resets `nextStart` to 0 and
      returns to listening. */
  lemma InterruptFlushes(s: Session, m: Message, now: real)
    requires s.mounted && m.interrupted && !Aborts(m)
    ensures var t := OnMessage(s, m, now);
      && t.active == {} && t.nextStart == 0.0 && t.status == Listening
      && t.started == AfterAudio(s, m, now).started
    ensures s.active <= Stopped(s, m, now)
    ensures HasAudio(m) ==> Stopped(s, m, now) == s.active + {|s.started|}
    ensures !HasAudio(m) ==> Stopped(s, m, now) == s.active
  {
  }

  /** After an interruption, and whatever quiet events follow it, the next
      chunk starts at the clock reading taken when it arrives, not at a time
      left over from before. */
  lemma ChunkAfterInterruptStartsAtClock(s: Session, m1: Message, t1: real, between: seq<Event>,
                                         m2: Message, t2: real)
    requires s.mounted && m1.interrupted && !Aborts(m1)
    requires forall k :: 0 <= k < |between| ==> Quiet(between[k])
    requires HasAudio(m2) && !Aborts(m2) && t2 >= 0.0
    ensures var u := OnMessage(Run(OnMessage(s, m1, t1), between), m2, t2);
      && |u.started| >= 1
      && u.started[|u.started| - 1].start == t2
      && u.started[|u.started| - 1].requestedAt == t2
  {
    var s1 := OnMessage(s, m1, t1);
    QuietKeepsReset(s1, between);
    ScheduleChunk(Run(s1, between), m2, t2);
  }

  /** `ended` removes exactly that source; the status becomes listening when
      no source is left and is unchanged otherwise. */
  lemma EndedRemovesOnlyThatSource(s: Session, id: nat)
    ensures var t := OnEnded(s, id);
      && t.active == s.active - {id}
      && (t.active == {} ==> t.status == Listening)
      && (t.active != {} ==> t.status == s.status)
      && t.nextStart == s.nextStart && t.started == s.started
      && t.mounted == s.mounted && t.capturing == s.capturing
  {
  }

  /** Status transitions of the mounted handlers: open listens, a message with
      audio speaks whatever the prior status, an interruption listens, close
      reconnects, error fails; a setup failure fails whether mounted or not. */
  lemma StatusTransitions(s: Session, m: Message, now: real)
    ensures s.mounted ==> OnOpen(s).status == Listening
    ensures s.mounted && HasAudio(m) && (Aborts(m) || !m.interrupted) ==> OnMessage(s, m, now).status == Speaking
    ensures s.mounted && m.interrupted && !Aborts(m) ==> OnMessage(s, m, now).status == Listening
    ensures s.mounted && !HasAudio(m) && !m.interrupted ==> OnMessage(s, m, now) == s
    ensures s.mounted ==> OnClose(s).status == Connecting
    ensures s.mounted ==> OnError(s).status == Error
    ensures OnSetupFailure(s).status == Error
  {
  }

  /** Once unmounted, the open, message, close and error handlers change
      nothing and no frame is sent. */
  lemma UnmountedIsInert(s: Session, e: Event, muted: bool)
    requires !s.mounted
    requires e.Opened? || e.Received? || e.Closed? || e.Errored?
    ensures Step(s, e) == s
    ensures !SendsFrame(s, muted)
  {
  }

  /** A frame is sent only after `onopen` ran while mounted, and never after
      cleanup. */
  lemma SendingNeedsOpenAndMounted(s: Session, muted: bool)
    ensures SendsFrame(OnOpen(s), muted) <==> s.mounted && !muted
    ensures !SendsFrame(Unmount(s), muted)
    ensures !SendsFrame(s, true)
    ensures !SendsFrame(Initial(), muted)
  {
  }

  lemma AfterAudioPreservesValid(s: Session, m: Message, now: real)
    requires Valid(s)
    ensures Valid(AfterAudio(s, m, now))
  {
    if HasAudio(m) && !Aborts(m) {
      ScheduleChunk(s, m, now);
      var t := AfterAudio(s, m, now);
      var n := |s.started|;
      forall i | 0 <= i < |t.started|
        ensures t.started[i].duration >= 0.0 && t.started[i].start >= t.started[i].requestedAt
      {
        if i < n { assert t.started[i] == s.started[i]; }
      }
      forall id | id in t.active
        ensures id < |t.started| && t.started[id].End() <= t.nextStart
      {
        if id != n { assert t.started[id] == s.started[id]; }
      }
      forall a, b | a in t.active && b in t.active && a < b
        ensures t.started[a].End() <= t.started[b].start
      {
        assert t.started[a] == s.started[a];
        if b != n { assert t.started[b] == s.started[b]; }
      }
    }
  }

  /** Every handler keeps the scheduler's guarantees. */
  lemma StepPreservesValid(s: Session, e: Event)
    requires Valid(s)
    ensures Valid(Step(s, e))
  {
    match e
    case Received(m, now) =>
      AfterAudioPreservesValid(s, m, now);
    case _ =>
  }

  // ---------------------------------------------------------------------------
  // Runs of events
  // ---------------------------------------------------------------------------

  /** One handler that is not an interruption: the sources it starts begin at or
      after the old `nextStart` and end by the new one, which is no earlier. */
  lemma StepWithoutInterrupt(s: Session, e: Event)
    requires !Interrupts(e)
    ensures var t := Step(s, e);
      && s.nextStart <= t.nextStart
      && |s.started| <= |t.started| <= |s.started| + 1
      && t.started[..|s.started|] == s.started
      && forall i :: |s.started| <= i < |t.started| ==>
           s.nextStart <= t.started[i].start && t.started[i].End() <= t.nextStart
  {
    var t := Step(s, e);
    match e
    case Received(m, now) =>
      if s.mounted && HasAudio(m) && !Aborts(m) {
        ScheduleChunk(s, m, now);
      } else {
        assert t.started == s.started;
      }
    case _ =>
      assert t.started == s.started;
  }

  /** Gapless playback: over any run of events with no interruption, the
      sources started play back to back in the order they were scheduled, each
      no earlier than the clock when it was scheduled, and `nextStart` never
      decreases. */
  lemma {:induction false} RunGapless(s: Session, events: seq<Event>)
    requires Valid(s)
    requires forall k :: 0 <= k < |events| ==> !Interrupts(events[k])
    ensures var t := Run(s, events);
      && Valid(t)
      && s.nextStart <= t.nextStart
      && |s.started| <= |t.started|
      && t.started[..|s.started|] == s.started
      && (forall i :: |s.started| <= i < |t.started| ==>
            s.nextStart <= t.started[i].start && t.started[i].End() <= t.nextStart
            && t.started[i].start >= t.started[i].requestedAt)
      && (forall i, j :: |s.started| <= i < j < |t.started| ==> t.started[i].End() <= t.started[j].start)
    decreases |events|
  {
    if events != [] {
      var s1 := Step(s, events[0]);
      StepPreservesValid(s, events[0]);
      StepWithoutInterrupt(s, events[0]);
      assert forall k :: 0 <= k < |events[1..]| ==> !Interrupts(events[1..][k]) by {
        forall k | 0 <= k < |events[1..]| ensures !Interrupts(events[1..][k]) {
          assert events[1..][k] == events[k + 1];
        }
      }
      RunGapless(s1, events[1..]);
      var t := Run(s, events);
      assert t == Run(s1, events[1..]);
      var n, n1 := |s.started|, |s1.started|;
      assert t.started[..n1] == s1.started;
      assert t.started[..n] == s.started by {
        assert s1.started[..n] == s.started;
      }
      forall i | n <= i < |t.started|
        ensures s.nextStart <= t.started[i].start && t.started[i].End() <= t.nextStart
      {
        if i < n1 {
          assert t.started[i] == s1.started[i];
        }
      }
      forall i, j | n <= i < j < |t.started|
        ensures t.started[i].End() <= t.started[j].start
      {
        if i < n1 {
          assert t.started[i] == s1.started[i];
        }
      }
    }
  }

  /** One handler that neither interrupts nor throws either leaves `started`
      and `nextStart` alone, or starts one source at the later of `nextStart`
      and the clock and moves `nextStart` to that source's end. */
  lemma StepBackToBack(s: Session, e: Event)
    requires !Interrupts(e) && !AbortsChunk(e)
    ensures var t := Step(s, e);
      || (t.started == s.started && t.nextStart == s.nextStart)
      || (&& |t.started| == |s.started| + 1
          && t.started[..|s.started|] == s.started
          && t.started[|s.started|].start == Max(s.nextStart, t.started[|s.started|].requestedAt)
          && t.nextStart == t.started[|s.started|].End())
  {
    match e
    case Received(m, now) =>
      if s.mounted && HasAudio(m) {
        ScheduleChunk(s, m, now);
      }
    case _ =>
  }

  /** Back-to-back playback: over a run with no interruption and no chunk that
      fails to decode, the first new source starts where `nextStart` stood and
      each later one exactly where the previous one ends, unless the clock is
      already past that point, in which case it starts at the clock; `nextStart`
      ends at the end of the last new source. */
  lemma {:induction false} RunBackToBack(s: Session, events: seq<Event>)
    requires forall k :: 0 <= k < |events| ==> !Interrupts(events[k]) && !AbortsChunk(events[k])
    ensures var t := Run(s, events); var n := |s.started|;
      && n <= |t.started|
      && t.started[..n] == s.started
      && (n < |t.started| ==> t.started[n].start == Max(s.nextStart, t.started[n].requestedAt))
      && (forall i :: n < i < |t.started| ==>
            t.started[i].start == Max(t.started[i - 1].End(), t.started[i].requestedAt))
      && (|t.started| == n ==> t.nextStart == s.nextStart)
      && (|t.started| > n ==> t.nextStart == t.started[|t.started| - 1].End())
    decreases |events|
  {
    if events != [] {
      var s1 := Step(s, events[0]);
      StepBackToBack(s, events[0]);
      assert forall k :: 0 <= k < |events[1..]| ==> events[1..][k] == events[k + 1];
      RunBackToBack(s1, events[1..]);
      var t := Run(s, events);
      assert t == Run(s1, events[1..]);
      var n, n1 := |s.started|, |s1.started|;
      assert t.started[..n1] == s1.started;
      assert t.started[..n] == s.started by {
        assert s1.started[..n] == s.started;
      }
      if n1 != n {
        assert t.started[n] == s1.started[n];
        if |t.started| == n1 {
          assert t.started[|t.started| - 1] == s1.started[n];
        }
      }
      forall i | n < i < |t.started|
        ensures t.started[i].start == Max(t.started[i - 1].End(), t.started[i].requestedAt)
      {
        if i == n1 {
          assert t.started[i - 1] == s1.started[n];
        }
      }
    }
  }

  /** Quiet events after a reset keep the effect mounted, `nextStart` at 0 and
      start nothing. */
  lemma {:induction false} QuietKeepsReset(s: Session, events: seq<Event>)
    requires s.mounted && s.nextStart == 0.0
    requires forall k :: 0 <= k < |events| ==> Quiet(events[k])
    ensures var t := Run(s, events);
      t.mounted && t.nextStart == 0.0 && t.started == s.started
    decreases |events|
  {
    if events != [] {
      assert forall k :: 0 <= k < |events[1..]| ==> events[1..][k] == events[k + 1];
      QuietKeepsReset(Step(s, events[0]), events[1..]);
    }
  }

  /** After cleanup, no run of open, message, close and error events changes
      anything. */
  lemma {:induction false} UnmountedRunIsInert(s: Session, events: seq<Event>)
    requires !s.mounted
    requires forall k :: 0 <= k < |events| ==>
      events[k].Opened? || events[k].Received? || events[k].Closed? || events[k].Errored?
    ensures Run(s, events) == s
    decreases |events|
  {
    if events != [] {
      assert Step(s, events[0]) == s;
      assert forall k :: 0 <= k < |events[1..]| ==> events[1..][k] == events[k + 1];
      UnmountedRunIsInert(s, events[1..]);
    }
  }

  // ---------------------------------------------------------------------------
  // Scenarios
  // ---------------------------------------------------------------------------

  /** A call opens, one chunk arrives at clock `now` and plays to its end: the
      status goes connecting, listening, speaking, listening, and the chunk is
      started exactly at `now`. */
  lemma OneTurn(payload: string, now: real)
    requires payload != [] && DecodeChunk(payload).Success? && now >= 0.0
    ensures var s0 := Initial();
      var s1 := Step(s0, Opened);
      var s2 := Step(s1, Received(Message(Some(payload), false), now));
      var s3 := Step(s2, Ended(0));
      && s0.status == Connecting
      && s1.status == Listening && SendsFrame(s1, false)
      && s2.status == Speaking && s2.active == {0} && |s2.started| == 1 && s2.started[0].start == now
      && s3.status == Listening && s3.active == {}
  {
    var m := Message(Some(payload), false);
    ScheduleChunk(OnOpen(Initial()), m, now);
  }

  /** Barge-in while two sources play: both are stopped, none stays active and
      the status returns to listening. */
  lemma BargeInStopsBoth(s: Session, now: real)
    requires s.mounted && s.status == Speaking && |s.active| == 2
    ensures var m := Message(None, true);
      var t := Step(s, Received(m, now));
      && Stopped(s, m, now) == s.active
      && t.active == {} && t.status == Listening
  {
  }
}
