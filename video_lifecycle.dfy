/**
 * The lifecycle shared by the two video steppers `Video1` and `Video2`:
 * `initialize` stores the pipeline built by a builder, `step` starts playback
 * once and then polls the pipeline's bus while the stream runs, `check_bus`
 * tears the pipeline down on end-of-stream or error from the pipeline itself,
 * and `shutdown` pauses and closes the pipeline and drops both handles.
 *
 * The media framework is abstracted: pipelines, buses and elements are
 * opaque object references, a `set_state` call is a request appended to
 * `requests`, and the bus is the queue of messages pending on it.
 */
module VideoLifecycle {
  import opened Wrappers

  /** An object of the media framework (pipeline, bus, element), known only by identity. */
  datatype ObjectRef = ObjectRef(id: nat)

  /** Pipeline states of the media framework. */
  datatype State = Null | Ready | Paused | Playing

  /** A `set_state` call on an object. */
  datatype Request = Request(target: ObjectRef, state: State)

  /** The kinds of bus message the steppers look at (and every other kind). */
  datatype MessageKind = Eos | Error | Warning | Info | StateChanged(current: State) | OtherKind

  /** A bus message and the object that posted it, if any (`msg.src()`). */
  datatype Message = Message(kind: MessageKind, src: Option<ObjectRef>)

  /** What a pipeline builder produced: a pipeline and its bus, or an error. */
  datatype BuildOutcome = Built(pipeline: ObjectRef, bus: ObjectRef) | BuildFailed

  /** The fields of a video stepper that its lifecycle reads and writes. */
  datatype Lifecycle = Lifecycle(
    first: bool,
    streamRunning: bool,
    pipeline: Option<ObjectRef>,
    bus: Option<ObjectRef>,
    requests: seq<Request>)

  /** A new stepper: playback not started, no stream, no pipeline, nothing requested. */
  const Initial := Lifecycle(true, false, None, None, [])

  /** Number of `Playing` requests in `rs`. */
  function PlayingCount(rs: seq<Request>): nat
  {
    if rs == [] then 0
    else PlayingCount(rs[..|rs| - 1]) + (if rs[|rs| - 1].state == Playing then 1 else 0)
  }

  lemma PlayingCountAppend(rs: seq<Request>, more: seq<Request>)
    requires forall i :: 0 <= i < |more| ==> more[i].state != Playing
    ensures PlayingCount(rs + more) == PlayingCount(rs)
    decreases |more|
  {
    if more != [] {
      assert (rs + more)[..|rs + more| - 1] == rs + more[..|more| - 1];
      assert (rs + more)[|rs + more| - 1] == more[|more| - 1];
      assert more[|more| - 1].state != Playing;
      PlayingCountAppend(rs, more[..|more| - 1]);
      assert PlayingCount(rs + more) == PlayingCount(rs + more[..|more| - 1]);
    } else {
      assert rs + more == rs;
    }
  }

  /**
   * The lifecycle invariant: the pipeline and its bus are held together, and
   * playback has been requested exactly once if `first` is cleared and never
   * otherwise.
   */
  ghost predicate Valid(s: Lifecycle)
  {
    (s.pipeline.Some? <==> s.bus.Some?) &&
    PlayingCount(s.requests) == (if s.first then 0 else 1)
  }

  // ---------------------------------------------------------------------
  // initialize
  // ---------------------------------------------------------------------

  /**
   * The part of `initialize` after the builder has run: on success the
   * stepper holds the new pipeline and bus and the stream runs; on failure
   * nothing changes. The result says which.
   */
  function Initialize(s: Lifecycle, outcome: BuildOutcome): (r: (bool, Lifecycle))
    ensures r.0 <==> outcome.Built?
    ensures r.0 ==> r.1 == s.(streamRunning := true, pipeline := Some(outcome.pipeline), bus := Some(outcome.bus))
    ensures !r.0 ==> r.1 == s
    ensures Valid(s) ==> Valid(r.1)
  {
    match outcome
    case Built(p, b) => (true, s.(streamRunning := true, pipeline := Some(p), bus := Some(b)))
    case BuildFailed => (false, s)
  }

  // ---------------------------------------------------------------------
  // The bus
  // ---------------------------------------------------------------------

  /** The message types `check_bus` asks the bus for: Error, EOS and StateChanged. */
  predicate Wanted(k: MessageKind)
  {
    k.Error? || k.Eos? || k.StateChanged?
  }

  /**
   * `timed_pop_filtered`: the first pending message of a wanted type, with
   * the messages of other types in front of it discarded; none if no pending
   * message has a wanted type (messages that arrive during the 1 ms wait are
   * not modelled). The second component is what stays on the bus.
   */
  function PopFiltered(queue: seq<Message>): (r: (Option<Message>, seq<Message>))
    ensures |r.1| <= |queue| && r.1 == queue[|queue| - |r.1|..]
    ensures r.0.Some? ==> |r.1| < |queue| && r.0.value == queue[|queue| - |r.1| - 1] && Wanted(r.0.value.kind)
    ensures r.0.None? ==> r.1 == []
    ensures forall j :: 0 <= j < |queue| - |r.1| - (if r.0.Some? then 1 else 0) ==> !Wanted(queue[j].kind)
  {
    if queue == [] then (None, [])
    else if Wanted(queue[0].kind) then (Some(queue[0]), queue[1..])
    else
      var tail := queue[1..];
      var r := PopFiltered(tail);
      assert tail[|tail| - |r.1|..] == queue[|queue| - |r.1|..];
      assert forall j :: 1 <= j < |queue| ==> queue[j] == tail[j - 1];
      r
  }

  /** `m` was posted by the pipeline the stepper holds. */
  predicate FromPipeline(s: Lifecycle, m: Message)
  {
    m.src.Some? && s.pipeline.Some? && m.src.value == s.pipeline.value
  }

  /** `m` ends the stream: an EOS or an error posted by the pipeline itself. */
  predicate Stops(s: Lifecycle, m: Message)
  {
    (m.kind.Eos? || m.kind.Error?) && FromPipeline(s, m)
  }

  /**
   * Reaction to one message: an EOS or error posted by the pipeline requests
   * `Null` on it, stops the stream and drops the pipeline and its bus; every
   * other message (from another element, or of another kind: state change,
   * warning, info) only logs and changes nothing.
   */
  function Dispatch(s: Lifecycle, m: Message): (r: Lifecycle)
    ensures r == s <==> !Stops(s, m)
    ensures Stops(s, m) ==>
              r.pipeline.None? && r.bus.None? && !r.streamRunning && r.first == s.first &&
              r.requests == s.requests + [Request(s.pipeline.value, Null)]
    ensures Valid(s) ==> Valid(r)
  {
    match m.kind
    case Eos | Error =>
      if FromPipeline(s, m) then
        var rs := s.requests + [Request(s.pipeline.value, Null)];
        PlayingCountAppend(s.requests, [Request(s.pipeline.value, Null)]);
        s.(requests := rs, streamRunning := false, bus := None, pipeline := None)
      else s
    case _ => s
  }

  /**
   * `check_bus`: with no bus nothing happens; otherwise at most one message
   * of a wanted type is taken from the bus and dispatched. The state changes
   * exactly when that message stops the stream.
   */
  function CheckBus(s: Lifecycle, queue: seq<Message>): (r: (Lifecycle, seq<Message>))
    ensures s.bus.None? ==> r == (s, queue)
    ensures |r.1| <= |queue| && r.1 == queue[|queue| - |r.1|..]
    ensures forall j :: 0 <= j < |queue| - |r.1| - 1 ==> !Wanted(queue[j].kind)
    ensures r.0 != s <==> |r.1| < |queue| && Stops(s, queue[|queue| - |r.1| - 1])
    ensures r.0 != s ==>
              r.0.pipeline.None? && r.0.bus.None? && !r.0.streamRunning && r.0.first == s.first &&
              r.0.requests == s.requests + [Request(s.pipeline.value, Null)]
    ensures s.bus.Some? ==> r.1 == PopFiltered(queue).1
    ensures s.bus.Some? && PopFiltered(queue).0.Some? ==> r.0 == Dispatch(s, PopFiltered(queue).0.value)
    ensures Valid(s) ==> Valid(r.0)
  {
    if s.bus.None? then (s, queue)
    else
      var (m, rest) := PopFiltered(queue);
      if m.None? then (s, rest) else (Dispatch(s, m.value), rest)
  }

  // ---------------------------------------------------------------------
  // step
  // ---------------------------------------------------------------------

  /**
   * The first part of `step` with a pipeline: while `first` is set, request
   * `Playing` on the pipeline and clear `first`; afterwards nothing.
   */
  function StartPlayback(s: Lifecycle): (r: Lifecycle)
    requires s.pipeline.Some?
    ensures !r.first && r.pipeline == s.pipeline && r.bus == s.bus && r.streamRunning == s.streamRunning
    ensures s.first ==> r.requests == s.requests + [Request(s.pipeline.value, Playing)]
    ensures !s.first ==> r == s
    ensures PlayingCount(r.requests) == PlayingCount(s.requests) + (if s.first then 1 else 0)
    ensures Valid(s) ==> Valid(r)
  {
    if s.first then
      var r := s.(requests := s.requests + [Request(s.pipeline.value, Playing)], first := false);
      assert r.requests[..|r.requests| - 1] == s.requests;
      r
    else s
  }

  /** The second part of `step` with a pipeline: the bus is polled only while the stream runs. */
  function Poll(s: Lifecycle, queue: seq<Message>): (r: (Lifecycle, seq<Message>))
    ensures !s.streamRunning ==> r == (s, queue)
    ensures r.0.first == s.first
    ensures PlayingCount(r.0.requests) == PlayingCount(s.requests)
    ensures |s.requests| <= |r.0.requests| && r.0.requests[..|s.requests|] == s.requests
    ensures |r.1| <= |queue| && r.1 == queue[|queue| - |r.1|..]
    ensures forall j :: 0 <= j < |queue| - |r.1| - 1 ==> !Wanted(queue[j].kind)
    ensures r.0 != s <==> s.streamRunning && |r.1| < |queue| && Stops(s, queue[|queue| - |r.1| - 1])
    ensures r.0 != s ==>
              r.0.pipeline.None? && r.0.bus.None? && !r.0.streamRunning &&
              r.0.requests == s.requests + [Request(s.pipeline.value, Null)]
    ensures s.streamRunning && s.bus.Some? ==> r.1 == PopFiltered(queue).1
    ensures Valid(s) ==> Valid(r.0)
  {
    if s.streamRunning then
      var r := CheckBus(s, queue);
      if r.0 == s then r
      else
        PlayingCountAppend(s.requests, [Request(s.pipeline.value, Null)]);
        assert r.0.requests[..|s.requests|] == s.requests;
        r
    else (s, queue)
  }

  /** A `step` from `s` to `r` changed the pipeline, the bus or the stream flag. */
  predicate StopsStream(s: Lifecycle, r: (Lifecycle, seq<Message>))
  {
    (r.0.pipeline, r.0.bus, r.0.streamRunning) != (s.pipeline, s.bus, s.streamRunning)
  }

  /**
   * `step`: without a pipeline nothing happens. With one, playback is
   * requested if `first` is still set (and `first` is cleared), and the bus is
   * polled if the stream runs.
   */
  function Step(s: Lifecycle, queue: seq<Message>): (r: (Lifecycle, seq<Message>))
    ensures s.pipeline.None? ==> r == (s, queue)
    ensures s.pipeline.Some? ==> !r.0.first
    ensures PlayingCount(r.0.requests) == PlayingCount(s.requests) + (if s.pipeline.Some? && s.first then 1 else 0)
    ensures s.pipeline.Some? && s.first ==>
              |r.0.requests| > |s.requests| && r.0.requests[|s.requests|] == Request(s.pipeline.value, Playing)
    ensures |s.requests| <= |r.0.requests| && r.0.requests[..|s.requests|] == s.requests
    ensures r.1 != queue ==> s.pipeline.Some? && s.streamRunning
    ensures |r.1| <= |queue| && r.1 == queue[|queue| - |r.1|..]
    ensures forall j :: 0 <= j < |queue| - |r.1| - 1 ==> !Wanted(queue[j].kind)
    ensures Valid(s) ==> Valid(r.0)
  {
    if s.pipeline.None? then (s, queue)
    else
      StartThenPoll(s, queue);
      Poll(StartPlayback(s), queue)
  }

  /** The requests after `StartPlayback` then `Poll` begin with the old ones and the optional `Playing`. */
  lemma {:induction false} StartThenPoll(s: Lifecycle, queue: seq<Message>)
    requires s.pipeline.Some?
    ensures var r := Poll(StartPlayback(s), queue);
              |s.requests| <= |r.0.requests| && r.0.requests[..|s.requests|] == s.requests &&
              (s.first ==> |r.0.requests| > |s.requests| && r.0.requests[|s.requests|] == Request(s.pipeline.value, Playing))
  {
    var s1 := StartPlayback(s);
    var r := Poll(s1, queue);
    assert r.0.requests[..|s1.requests|][..|s.requests|] == s.requests;
    if s.first { assert r.0.requests[|s.requests|] == s1.requests[|s.requests|]; }
  }

  /**
   * What `step` leaves alone: the pipeline, the bus and the stream flag change
   * only when a popped message stops the stream, and then `Null` is the one
   * request added after the optional `Playing`.
   */
  lemma StepChangesOnlyOnStop(s: Lifecycle, queue: seq<Message>)
    ensures var r := Step(s, queue);
      StopsStream(s, r) <==>
        s.pipeline.Some? && s.streamRunning && |r.1| < |queue| && Stops(s, queue[|queue| - |r.1| - 1])
    ensures var r := Step(s, queue);
      StopsStream(s, r) ==> r.0.pipeline.None? && r.0.bus.None? && !r.0.streamRunning
    ensures var r := Step(s, queue);
      r.0.requests == s.requests + (if s.pipeline.Some? && s.first then [Request(s.pipeline.value, Playing)] else [])
                                 + (if StopsStream(s, r) then [Request(s.pipeline.value, Null)] else [])
  {
    if s.pipeline.Some? {
      var s1 := StartPlayback(s);
      var r := Poll(s1, queue);
      assert Step(s, queue) == r;
      var start := if s.first then [Request(s.pipeline.value, Playing)] else [];
      assert s1.requests == s.requests + start;
      if r.0 != s1 {
        assert Stops(s, queue[|queue| - |r.1| - 1]);
        assert StopsStream(s, r);
      } else {
        assert !StopsStream(s, r);
      }
    }
  }

  /**
   * What `step` does with the bus while the stream runs: the first wanted
   * message is taken (and the unwanted ones before it dropped); an EOS or
   * error of the pipeline among them stops the stream, drops both handles and
   * requests `Null`; any other popped message leaves the handles alone.
   */
  lemma StepPollsBus(s: Lifecycle, queue: seq<Message>)
    requires s.pipeline.Some? && s.streamRunning && s.bus.Some?
    ensures Step(s, queue).1 == PopFiltered(queue).1
    ensures PopFiltered(queue).0.Some? && Stops(s, PopFiltered(queue).0.value) ==>
              var r := Step(s, queue).0;
              r.pipeline.None? && r.bus.None? && !r.streamRunning &&
              |r.requests| > 0 && r.requests[|r.requests| - 1] == Request(s.pipeline.value, Null)
    ensures !(PopFiltered(queue).0.Some? && Stops(s, PopFiltered(queue).0.value)) ==>
              !StopsStream(s, Step(s, queue))
  {
    var s1 := StartPlayback(s);
    assert Step(s, queue) == Poll(s1, queue);
    var popped := PopFiltered(queue);
    if popped.0.Some? {
      assert Stops(s1, popped.0.value) == Stops(s, popped.0.value);
    }
  }

  // ---------------------------------------------------------------------
  // shutdown
  // ---------------------------------------------------------------------

  /**
   * `shutdown`: if there is a pipeline, `Paused` is requested and, only if
   * that request succeeded (`pausedOk`), `Null` after it; in every case both
   * handles are dropped. `first` and `stream_running` are left as they are.
   */
  function Shutdown(s: Lifecycle, pausedOk: bool): (r: Lifecycle)
    ensures r.pipeline.None? && r.bus.None?
    ensures r.first == s.first && r.streamRunning == s.streamRunning
    ensures s.pipeline.None? ==> r.requests == s.requests
    ensures s.pipeline.Some? ==>
              r.requests == s.requests + [Request(s.pipeline.value, Paused)] +
                            (if pausedOk then [Request(s.pipeline.value, Null)] else [])
    ensures Valid(s) ==> Valid(r)
  {
    if s.pipeline.Some? then
      var p := s.pipeline.value;
      var closing := [Request(p, Paused)] + (if pausedOk then [Request(p, Null)] else []);
      PlayingCountAppend(s.requests, closing);
      s.(requests := s.requests + closing, bus := None, pipeline := None)
    else
      s.(bus := None, pipeline := None)
  }

  // ---------------------------------------------------------------------
  // Runs of frames
  // ---------------------------------------------------------------------

  /** The lifecycle after one `step` per frame, frame `i` seeing the messages `frames[i]` on the bus. */
  function Steps(s: Lifecycle, frames: seq<seq<Message>>): Lifecycle
  {
    if frames == [] then s else Step(Steps(s, frames[..|frames| - 1]), frames[|frames| - 1]).0
  }

  /** Stepping keeps the lifecycle invariant. */
  lemma {:induction false} StepsValid(s: Lifecycle, frames: seq<seq<Message>>)
    requires Valid(s)
    ensures Valid(Steps(s, frames))
  {
    if frames != [] {
      StepsValid(s, frames[..|frames| - 1]);
    }
  }

  /**
   * A whole life: `initialize`, any number of frames, `shutdown`. Playback is
   * requested at most once, and at the end the stepper holds no pipeline and
   * no bus.
   */
  lemma WholeLife(outcome: BuildOutcome, frames: seq<seq<Message>>, pausedOk: bool)
    ensures var last := Shutdown(Steps(Initialize(Initial, outcome).1, frames), pausedOk);
      PlayingCount(last.requests) <= 1 && last.pipeline.None? && last.bus.None?
  {
    var s := Initialize(Initial, outcome).1;
    StepsValid(s, frames);
  }

  /** Once the pipeline is gone (after EOS, error or a failed build), stepping does nothing. */
  lemma {:induction false} StepsWithoutPipeline(s: Lifecycle, frames: seq<seq<Message>>)
    requires s.pipeline.None?
    ensures Steps(s, frames) == s
  {
    if frames != [] {
      StepsWithoutPipeline(s, frames[..|frames| - 1]);
    }
  }

  /** A stream that was never started (failed build) never requests anything in any frame. */
  lemma FailedBuildRequestsNothing(frames: seq<seq<Message>>)
    ensures Steps(Initialize(Initial, BuildFailed).1, frames).requests == []
  {
    StepsWithoutPipeline(Initial, frames);
  }
}
