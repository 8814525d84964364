/**
 * `useAudioBufferQueue`: the hook that feeds decoded audio buffers to a
 * buffer-queue source node and tracks when the queue has drained. It keeps
 * the playing flag (a state and its mirror ref) and the id of the most
 * recently enqueued buffer; the node's `onEnded` callback resets both when
 * the buffer that ends is that most recent one.
 */
module AudioBufferQueue {
  import opened Wrappers

  /**
   * The buffer-queue source node, seen through what the hook does to it: the
   * ids it handed out, how often `start()` was called, and whether the
   * hook's `onEnded` handler is installed. The hook never stops or clears it.
   */
  datatype Sink = Sink(enqueued: seq<string>, startCalls: nat, onEndedInstalled: bool)

  /** `audioBufferQueueRef.current` (None for null), `isAudioPlaying`, `isAudioPlayingRef.current`, `lastBufferIdRef.current`. */
  datatype QueueState = QueueState(sink: Option<Sink>, isAudioPlaying: bool, isAudioPlayingRef: bool, lastBufferId: string)

  /** The initial values of the refs and the state. */
  function Initial(): QueueState {
    QueueState(None, false, false, "")
  }

  /**
   * What every callback keeps: the state and its ref agree, and the hook
   * plays only with a node whose `onEnded` handler is installed and a
   * non-empty last id.
   */
  predicate Valid(s: QueueState) {
    && s.isAudioPlaying == s.isAudioPlayingRef
    && (s.isAudioPlaying ==> s.sink.Some? && s.sink.value.onEndedInstalled && s.lastBufferId != "")
  }

  /** `updateIsAudioPlaying`: set the state and its ref together. */
  function SetPlaying(s: QueueState, newIsAudioPlaying: bool): (r: QueueState)
    ensures r.isAudioPlaying == newIsAudioPlaying && r.isAudioPlayingRef == newIsAudioPlaying
    ensures r.sink == s.sink && r.lastBufferId == s.lastBufferId
  {
    s.(isAudioPlaying := newIsAudioPlaying, isAudioPlayingRef := newIsAudioPlaying)
  }

  /**
   * `resetState` (exported as `stopPlayingAudio`, and the mount effect's
   * cleanup): not playing, no last id; the node is left alone.
   */
  function Reset(s: QueueState): (r: QueueState)
    ensures !r.isAudioPlaying && !r.isAudioPlayingRef && r.lastBufferId == ""
    ensures r.sink == s.sink
  {
    SetPlaying(s, false).(lastBufferId := "")
  }

  /** The mount effect: reset, then create a fresh context and node and hold the node. */
  function Mounted(s: QueueState): (r: QueueState)
    ensures r == QueueState(Some(Sink([], 0, false)), false, false, "")
  {
    Reset(s).(sink := Some(Sink([], 0, false)))
  }

  /**
   * `enqueueAudioBufferQueue`: hand the buffer to the node, which answers
   * with `sinkId`; return that id (undefined when there is no node) and
   * record it as the last id only when it is truthy. Playback is not started.
   */
  function Enqueue(s: QueueState, sinkId: string): (r: (QueueState, Option<string>))
    ensures r.1 == (if s.sink.Some? then Some(sinkId) else None)
    ensures r.0.lastBufferId == (if s.sink.Some? && sinkId != "" then sinkId else s.lastBufferId)
    ensures r.0.isAudioPlaying == s.isAudioPlaying && r.0.isAudioPlayingRef == s.isAudioPlayingRef
    ensures r.0.sink.Some? <==> s.sink.Some?
    ensures s.sink.Some? ==> r.0.sink.value == s.sink.value.(enqueued := s.sink.value.enqueued + [sinkId])
  {
    match s.sink
    case None => (s, None)
    case Some(node) =>
      var bufferId := sinkId;
      var recorded := s.(sink := Some(node.(enqueued := node.enqueued + [bufferId])));
      (if bufferId != "" then recorded.(lastBufferId := bufferId) else recorded, Some(bufferId))
  }

  /**
   * `playAudio`: with a node and a non-empty last id, start the node, set
   * playing and install the `onEnded` handler; otherwise do nothing.
   */
  function Play(s: QueueState): (r: QueueState)
    ensures !(s.sink.Some? && s.lastBufferId != "") ==> r == s
    ensures s.sink.Some? && s.lastBufferId != "" ==>
      && r.sink == Some(s.sink.value.(startCalls := s.sink.value.startCalls + 1, onEndedInstalled := true))
      && r.isAudioPlaying && r.isAudioPlayingRef && r.lastBufferId == s.lastBufferId
  {
    if s.sink.Some? && s.lastBufferId != "" then
      var started := s.(sink := Some(s.sink.value.(startCalls := s.sink.value.startCalls + 1)));
      var playing := SetPlaying(started, true);
      playing.(sink := Some(playing.sink.value.(onEndedInstalled := true)))
    else s
  }

  /**
   * The node reports that buffer `bufferId` ended. Before `playAudio` has
   * installed the handler nothing listens; afterwards the handler resets
   * exactly when `bufferId` is the last recorded id.
   */
  function Ended(s: QueueState, bufferId: string): (r: QueueState)
    ensures s.sink.Some? && s.sink.value.onEndedInstalled && bufferId == s.lastBufferId ==> r == Reset(s)
    ensures !(s.sink.Some? && s.sink.value.onEndedInstalled && bufferId == s.lastBufferId) ==> r == s
  {
    if s.sink.Some? && s.sink.value.onEndedInstalled && bufferId == s.lastBufferId then Reset(s) else s
  }

  // ---------------------------------------------------------------------------
  // Properties of single callbacks

  /** Every callback keeps the state and its ref equal, and playing implies a non-empty last id. */
  lemma CallbacksKeepValid(s: QueueState, sinkId: string, bufferId: string)
    requires Valid(s)
    ensures Valid(Reset(s)) && Valid(Mounted(s))
    ensures Valid(Enqueue(s, sinkId).0)
    ensures Valid(Play(s))
    ensures Valid(Ended(s, bufferId))
    ensures Valid(SetPlaying(s, false))
  {
  }

  /** `resetState` twice is `resetState` once. */
  lemma ResetIdempotent(s: QueueState)
    ensures Reset(Reset(s)) == Reset(s)
  {
  }

  /** `resetState` changes only the two flags and the last id: the node's log is untouched. */
  lemma ResetLeavesSinkAlone(s: QueueState)
    ensures Reset(s) == QueueState(s.sink, false, false, "")
  {
  }

  /** Enqueueing never starts playback, never changes the playing flag, and never installs the handler. */
  lemma EnqueueNeverStartsPlayback(s: QueueState, sinkId: string)
    requires s.sink.Some?
    ensures Enqueue(s, sinkId).0.sink.value.startCalls == s.sink.value.startCalls
    ensures Enqueue(s, sinkId).0.sink.value.onEndedInstalled == s.sink.value.onEndedInstalled
    ensures Enqueue(s, sinkId).0.isAudioPlaying == s.isAudioPlaying
  {
  }

  /** `playAudio` starts the node exactly when a node is held and the last id is non-empty. */
  lemma PlayStartsIffReady(s: QueueState)
    requires s.sink.Some?
    ensures Play(s).sink.value.startCalls == s.sink.value.startCalls + (if s.lastBufferId != "" then 1 else 0)
    ensures Play(s).isAudioPlaying <==> s.isAudioPlaying || s.lastBufferId != ""
  {
  }

  /** `playAudio` before anything was enqueued does nothing. */
  lemma PlayBeforeEnqueueDoesNothing(s: QueueState)
    ensures Play(Mounted(s)) == Mounted(s)
  {
  }

  /**
   * Once the handler is installed, a buffer's end resets the hook if and
   * only if that buffer is the last one enqueued; any other end changes nothing.
   */
  lemma DrainOnlyForNewest(s: QueueState, bufferId: string)
    requires s.sink.Some? && s.sink.value.onEndedInstalled
    ensures bufferId == s.lastBufferId ==> Ended(s, bufferId) == QueueState(s.sink, false, false, "")
    ensures bufferId != s.lastBufferId ==> Ended(s, bufferId) == s
    ensures Ended(s, bufferId) != s <==> bufferId == s.lastBufferId && (s.isAudioPlaying || s.isAudioPlayingRef || s.lastBufferId != "")
  {
  }

  /**
   * Enqueueing a buffer with a truthy id moves the drain point to it: the
   * end of the previously newest buffer no longer resets anything.
   */
  lemma EnqueueMovesDrainPoint(s: QueueState, older: string, newer: string)
    requires s.sink.Some? && newer != "" && older != newer
    ensures Ended(Enqueue(s, newer).0, older) == Enqueue(s, newer).0
    ensures Enqueue(s, newer).0.sink.value.onEndedInstalled ==>
      Ended(Enqueue(s, newer).0, newer) == Reset(Enqueue(s, newer).0)
  {
  }

  /** After the drain the last id is empty, so the end of any real buffer is ignored. */
  lemma EndAfterDrainIgnored(s: QueueState, first: string, later: string)
    requires s.sink.Some? && s.sink.value.onEndedInstalled && first == s.lastBufferId && later != ""
    ensures Ended(Ended(s, first), later) == Ended(s, first)
  {
  }

  // ---------------------------------------------------------------------------
  // Sequences of callbacks

  /** One call into the hook, or one callback from the node. */
  datatype Step =
    | EnqueueStep(sinkId: string)  // enqueueAudioBufferQueue; the node answers sinkId
    | PlayStep                     // playAudio
    | EndedStep(bufferId: string)  // the node's onEnded
    | StopStep                     // stopPlayingAudio

  function Apply(s: QueueState, step: Step): QueueState {
    match step
    case EnqueueStep(id) => Enqueue(s, id).0
    case PlayStep => Play(s)
    case EndedStep(id) => Ended(s, id)
    case StopStep => Reset(s)
  }

  /** The state after a sequence of steps, taken in order. */
  function RunSteps(s: QueueState, steps: seq<Step>): QueueState
    decreases |steps|
  {
    if steps == [] then s else RunSteps(Apply(s, steps[0]), steps[1..])
  }

  /** Every sequence of steps keeps the invariant. */
  lemma {:induction false} RunKeepsValid(s: QueueState, steps: seq<Step>)
    requires Valid(s)
    ensures Valid(RunSteps(s, steps))
    decreases |steps|
  {
    if steps != [] {
      var step := steps[0];
      match step {
        case EnqueueStep(id) => CallbacksKeepValid(s, id, "");
        case PlayStep => CallbacksKeepValid(s, "", "");
        case EndedStep(id) => CallbacksKeepValid(s, "", id);
        case StopStep => CallbacksKeepValid(s, "", "");
      }
      RunKeepsValid(Apply(s, step), steps[1..]);
    }
  }

  /**
   * Gapless playback: enqueue `a`, play, enqueue `b` while playing; the end
   * of `a` leaves the hook playing, and only the end of `b` drains it.
   */
  lemma GaplessPlayback(s: QueueState, a: string, b: string)
    requires a != "" && b != "" && a != b
    ensures var playing := RunSteps(Mounted(s), [EnqueueStep(a), PlayStep, EnqueueStep(b), EndedStep(a)]);
      && playing.isAudioPlaying && playing.lastBufferId == b
      && var drained := Ended(playing, b);
      && !drained.isAudioPlaying && drained.lastBufferId == ""
      && drained.sink == Some(Sink([a, b], 1, true))
  {
    var m := Mounted(s);
    var s1 := Enqueue(m, a).0;
    assert [] + [a] == [a] && [a] + [b] == [a, b];
    assert s1 == QueueState(Some(Sink([a], 0, false)), false, false, a);
    var s2 := Play(s1);
    assert s2 == QueueState(Some(Sink([a], 1, true)), true, true, a);
    var s3 := Enqueue(s2, b).0;
    assert s3 == QueueState(Some(Sink([a, b], 1, true)), true, true, b);
    var s4 := Ended(s3, a);
    assert s4 == s3;
    var steps := [EnqueueStep(a), PlayStep, EnqueueStep(b), EndedStep(a)];
    assert steps[1..] == [PlayStep, EnqueueStep(b), EndedStep(a)];
    assert steps[1..][1..] == [EnqueueStep(b), EndedStep(a)];
    assert steps[1..][1..][1..] == [EndedStep(a)];
    assert steps[1..][1..][1..][1..] == [];
    assert RunSteps(s3, [EndedStep(a)]) == s4;
    assert RunSteps(s2, [EnqueueStep(b), EndedStep(a)]) == s4;
    assert RunSteps(s1, [PlayStep, EnqueueStep(b), EndedStep(a)]) == s4;
    assert RunSteps(m, steps) == s4;
  }

  /** `enqueueAudioBufferQueue` for each id in turn. */
  function EnqueueAll(s: QueueState, ids: seq<string>): QueueState
    decreases |ids|
  {
    if ids == [] then s else EnqueueAll(Enqueue(s, ids[0]).0, ids[1..])
  }

  /** The node reports the end of each id in turn. */
  function EndAll(s: QueueState, ids: seq<string>): QueueState
    decreases |ids|
  {
    if ids == [] then s else EndAll(Ended(s, ids[0]), ids[1..])
  }

  /**
   * Enqueueing a run of buffers appends their ids to the node's log, leaves
   * the flags, `start()` count and handler alone, and makes the last id the
   * drain point when it is truthy.
   */
  lemma {:induction false} EnqueueAllRecords(s: QueueState, ids: seq<string>)
    requires s.sink.Some?
    ensures EnqueueAll(s, ids).sink == Some(s.sink.value.(enqueued := s.sink.value.enqueued + ids))
    ensures EnqueueAll(s, ids).isAudioPlaying == s.isAudioPlaying
    ensures EnqueueAll(s, ids).isAudioPlayingRef == s.isAudioPlayingRef
    ensures ids != [] && ids[|ids| - 1] != "" ==> EnqueueAll(s, ids).lastBufferId == ids[|ids| - 1]
    ensures ids == [] ==> EnqueueAll(s, ids) == s
    decreases |ids|
  {
    if ids != [] {
      var next := Enqueue(s, ids[0]).0;
      EnqueueAllRecords(next, ids[1..]);
      assert EnqueueAll(s, ids) == EnqueueAll(next, ids[1..]);
      assert next.sink.value == s.sink.value.(enqueued := s.sink.value.enqueued + [ids[0]]);
      assert s.sink.value.enqueued + [ids[0]] + ids[1..] == s.sink.value.enqueued + ids;
      if |ids| > 1 {
        assert ids[1..][|ids[1..]| - 1] == ids[|ids| - 1];
      }
    } else {
      assert s.sink.value.enqueued + ids == s.sink.value.enqueued;
    }
  }

  /** The ends of buffers other than the newest change nothing, in any number. */
  lemma {:induction false} EndsOfOthersIgnored(s: QueueState, ids: seq<string>)
    requires s.lastBufferId !in ids
    ensures EndAll(s, ids) == s
    decreases |ids|
  {
    if ids != [] {
      assert ids[0] in ids;
      assert Ended(s, ids[0]) == s;
      forall id | id in ids[1..] ensures id in ids {
      }
      EndsOfOthersIgnored(s, ids[1..]);
    }
  }

  /** Once drained, the hook is a fixed point of every end, whatever the ids. */
  lemma {:induction false} EndsAfterDrainIgnored(s: QueueState, ids: seq<string>)
    requires s == Reset(s)
    ensures EndAll(s, ids) == s
    decreases |ids|
  {
    if ids != [] {
      assert Ended(s, ids[0]) == s;
      EndsAfterDrainIgnored(s, ids[1..]);
    }
  }

  /**
   * Gapless playback of any run of buffers: enqueue `first`, play, and enqueue
   * the `rest` while playing. The end of every buffer before the newest
   * leaves the hook playing with the newest as drain point; the newest's end
   * resets it, once; any end after that is ignored.
   */
  lemma DrainsOncePerRun(s: QueueState, first: string, rest: seq<string>, later: seq<string>)
    requires first != ""
    requires var ids := [first] + rest; ids[|ids| - 1] != "" && ids[|ids| - 1] !in ids[..|ids| - 1]
    ensures var ids := [first] + rest;
      var newest := ids[|ids| - 1];
      var started := EnqueueAll(Play(Enqueue(Mounted(s), first).0), rest);
      && started == QueueState(Some(Sink(ids, 1, true)), true, true, newest)
      && (forall k | 0 <= k < |ids| :: EndAll(started, ids[..k]) == started)
      && Ended(started, newest) == QueueState(Some(Sink(ids, 1, true)), false, false, "")
      && EndAll(Ended(started, newest), later) == Ended(started, newest)
  {
    var ids := [first] + rest;
    var newest := ids[|ids| - 1];
    var playing := Play(Enqueue(Mounted(s), first).0);
    assert [] + [first] == [first];
    assert playing == QueueState(Some(Sink([first], 1, true)), true, true, first);
    EnqueueAllRecords(playing, rest);
    var started := EnqueueAll(playing, rest);
    assert started.lastBufferId == newest by {
      if rest != [] {
        assert rest[|rest| - 1] == newest;
      }
    }
    assert started == QueueState(Some(Sink(ids, 1, true)), true, true, newest);
    forall k | 0 <= k < |ids| ensures EndAll(started, ids[..k]) == started {
      forall id | id in ids[..k] ensures id in ids[..|ids| - 1] {
        var j :| 0 <= j < k && ids[..k][j] == id;
        assert ids[..|ids| - 1][j] == id;
      }
      EndsOfOthersIgnored(started, ids[..k]);
    }
    var drained := Ended(started, newest);
    assert drained == QueueState(Some(Sink(ids, 1, true)), false, false, "");
    EndsAfterDrainIgnored(drained, later);
  }

  // ---------------------------------------------------------------------------
  // The hook as an object whose refs and state its callbacks update in place

  class AudioBufferQueueHook {
    var audioBufferQueue: Option<Sink>
    var isAudioPlaying: bool
    var isAudioPlayingRef: bool
    var lastBufferId: string

    function State(): QueueState
      reads this
    {
      QueueState(audioBufferQueue, isAudioPlaying, isAudioPlayingRef, lastBufferId)
    }

    constructor ()
      ensures State() == Initial() && Valid(State())
    {
      audioBufferQueue := None;
      isAudioPlaying := false;
      isAudioPlayingRef := false;
      lastBufferId := "";
    }

    method UpdateIsAudioPlaying(newIsAudioPlaying: bool)
      modifies this
      ensures State() == SetPlaying(old(State()), newIsAudioPlaying)
    {
      isAudioPlaying := newIsAudioPlaying;
      isAudioPlayingRef := newIsAudioPlaying;
    }

    method ResetState()
      modifies this
      ensures State() == Reset(old(State())) && Valid(State())
    {
      UpdateIsAudioPlaying(false);
      lastBufferId := "";
    }

    method Mount()
      modifies this
      ensures State() == Mounted(old(State())) && Valid(State())
    {
      ResetState();
      audioBufferQueue := Some(Sink([], 0, false));
    }

    method EnqueueAudioBufferQueue(sinkId: string) returns (bufferId: Option<string>)
      requires Valid(State())
      modifies this
      ensures (State(), bufferId) == Enqueue(old(State()), sinkId) && Valid(State())
    {
      bufferId := None;
      if audioBufferQueue.Some? {
        var node := audioBufferQueue.value;
        audioBufferQueue := Some(node.(enqueued := node.enqueued + [sinkId]));
        bufferId := Some(sinkId);
      }
      if bufferId.Some? && bufferId.value != "" {
        lastBufferId := bufferId.value;
      }
    }

    method PlayAudio()
      requires Valid(State())
      modifies this
      ensures State() == Play(old(State())) && Valid(State())
    {
      if audioBufferQueue.Some? && lastBufferId != "" {
        audioBufferQueue := Some(audioBufferQueue.value.(startCalls := audioBufferQueue.value.startCalls + 1));
        UpdateIsAudioPlaying(true);
        audioBufferQueue := Some(audioBufferQueue.value.(onEndedInstalled := true));
      }
    }

    method OnEnded(bufferId: string)
      requires Valid(State())
      modifies this
      ensures State() == Ended(old(State()), bufferId) && Valid(State())
    {
      if audioBufferQueue.Some? && audioBufferQueue.value.onEndedInstalled && bufferId == lastBufferId {
        ResetState();
      }
    }
  }
}
