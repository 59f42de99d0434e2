/**
 * The recording controller of the video recorder: a three-second countdown started by the
 * form or a right swipe, recording once the countdown runs out, chunks buffered while the
 * media recorder runs, and one saved clip each time it stops.
 *
 * The control state (`isRecording`, `pendingStart`, `countdown` and the media recorder's own
 * state) is specified by the pure transition function `Step`; the class `VideoRecorder`
 * holds that state in fields and its event handlers are proved to take exactly the step
 * `Step` describes, while also keeping the chunk buffer and the clip list.
 */
module RecordingController {
  import opened Wrappers
  import opened Media
  import opened Storage
  import Decimal

  /** Length of the countdown, in one-second ticks. */
  const CountdownSeconds: nat := 3

  /** The horizontal swipe direction reported by the gesture library (-1, 0 or 1). */
  datatype SwipeX = SwipeLeft | NoSwipe | SwipeRight

  /**
   * The state of the MediaRecorder held in `mediaRecorderRef`: none yet, capturing, asked to
   * stop but its stop callback not yet delivered, or stopped.
   */
  datatype RecorderState = NoRecorder | Capturing | Stopping | Inactive

  datatype Controls = Controls(isRecording: bool, pendingStart: bool, countdown: Option<nat>, media: RecorderState)

  /** The states of the controller as a user sees them. */
  datatype Phase = Idle | CountingDown(n: nat) | Recording

  /**
   * The events the controller reacts to. `Tick` is the one-second timer firing and carries
   * whether a camera stream is present; `Data` is a chunk from the recorder; `Stopped` is the
   * recorder's stop callback; `Swipe` carries the user-agent test.
   */
  datatype Event =
    | Submit
    | Tick(hasStream: bool)
    | Data(chunk: Chunk)
    | StopRequest
    | Stopped
    | Swipe(dir: SwipeX, mobile: bool)

  const Initial: Controls := Controls(false, false, None, NoRecorder)

  /** What holds between any two events. */
  ghost predicate Inv(c: Controls)
  {
    && (c.pendingStart <==> c.countdown.Some?)
    && (c.countdown.Some? ==> 1 <= c.countdown.value <= CountdownSeconds)
    && !(c.isRecording && c.pendingStart)
    && (c.isRecording <==> (c.media.Capturing? || c.media.Stopping?))
  }

  function PhaseOf(c: Controls): Phase
  {
    if c.isRecording then Recording
    else if c.countdown.Some? then CountingDown(c.countdown.value)
    else Idle
  }

  /**
   * `handleCountdownStart`: from Idle, a three-second countdown is pending; the recording flag
   * and the recorder are left alone.
   */
  function CountdownStart(c: Controls): (r: Controls)
    ensures Inv(c) && PhaseOf(c) == Idle ==> Inv(r) && PhaseOf(r) == CountingDown(CountdownSeconds)
    ensures r.isRecording == c.isRecording && r.media == c.media
  {
    c.(pendingStart := true, countdown := Some(CountdownSeconds))
  }

  /**
   * `handleStartRecording`: from Idle, recording starts with a fresh recorder exactly when
   * there is a stream; without one nothing changes.
   */
  function StartRecording(c: Controls, hasStream: bool): (r: Controls)
    ensures Inv(c) && PhaseOf(c) == Idle ==> Inv(r) && PhaseOf(r) == (if hasStream then Recording else Idle)
    ensures r.media.Capturing? <==> hasStream || c.media.Capturing?
    ensures !hasStream ==> r == c
  {
    if hasStream then c.(isRecording := true, media := Capturing) else c
  }

  /**
   * `handleStopRecording`: a capturing recorder is asked to stop; one that is already
   * stopping, stopped or absent ignores it. The phase does not change until the stop callback.
   */
  function StopRecording(c: Controls): (r: Controls)
    ensures Inv(c) ==> Inv(r) && PhaseOf(r) == PhaseOf(c)
    ensures !r.media.Capturing?
    ensures r.media.Stopping? <==> c.media.Capturing? || c.media.Stopping?
  {
    if c.media.Capturing? then c.(media := Stopping) else c
  }

  /**
   * One event. Every event keeps the invariant, and only the recorder's stop callback ends
   * a recording.
   */
  function Step(c: Controls, e: Event): (r: Controls)
    ensures Inv(c) ==> Inv(r)
    ensures c.isRecording && !r.isRecording ==> e == Stopped
  {
    match e
    case Submit =>
      if !c.isRecording && !c.pendingStart then CountdownStart(c) else c
    case Tick(hasStream) =>
      (match c.countdown
       case None => c
       case Some(n) =>
         if n <= 1 then StartRecording(c.(countdown := None, pendingStart := false), hasStream)
         else c.(countdown := Some(n - 1)))
    case Data(_) => c
    case StopRequest => StopRecording(c)
    case Stopped => c.(isRecording := false, media := Inactive)
    case Swipe(dir, mobile) =>
      if !mobile then c
      else if dir == SwipeRight && !c.isRecording && !c.pendingStart then CountdownStart(c)
      else if dir == SwipeLeft && c.isRecording then StopRecording(c)
      else c
  }

  function Run(c: Controls, es: seq<Event>): Controls
    decreases |es|
  {
    if es == [] then c else Run(Step(c, es[0]), es[1..])
  }

  // ---------------------------------------------------------------------------------------
  // One step

  lemma InitialSatisfiesInv()
    ensures Inv(Initial) && PhaseOf(Initial) == Idle
  {
  }

  /**
   * A media recorder is created only by the last tick of a countdown, with a stream, and
   * never while a recording is running.
   */
  lemma RecorderCreatedOnlyByLastTick(c: Controls, e: Event)
    requires Inv(c)
    requires Step(c, e).media.Capturing? && !c.media.Capturing?
    ensures c.countdown == Some(1) && e == Tick(true) && !c.isRecording
  {
  }

  /** A countdown starts only from Idle, and always at 3; a start request elsewhere is ignored. */
  lemma StartRequestOnlyFromIdle(c: Controls, mobile: bool)
    requires Inv(c)
    ensures PhaseOf(c) == Idle ==> PhaseOf(Step(c, Submit)) == CountingDown(CountdownSeconds)
    ensures PhaseOf(c) != Idle ==> Step(c, Submit) == c
    ensures Step(c, Swipe(SwipeRight, true)) == Step(c, Submit)
  {
  }

  /** Off mobile every swipe is ignored. */
  lemma SwipesNeedMobile(c: Controls, dir: SwipeX)
    ensures Step(c, Swipe(dir, false)) == c
  {
  }

  /** A left swipe acts only while recording, and then exactly as the stop button. */
  lemma SwipeLeftStopsOnlyWhileRecording(c: Controls)
    requires Inv(c)
    ensures !c.isRecording ==> Step(c, Swipe(SwipeLeft, true)) == c
    ensures c.isRecording ==> Step(c, Swipe(SwipeLeft, true)) == Step(c, StopRequest)
  {
  }

  /**
   * A countdown cannot be cancelled: apart from the tick, no event changes the phase of a
   * counting-down controller.
   */
  lemma CountdownNotCancellable(c: Controls, e: Event)
    requires Inv(c) && PhaseOf(c).CountingDown?
    requires !e.Tick?
    ensures PhaseOf(Step(c, e)) == PhaseOf(c)
  {
  }

  /**
   * A tick lowers a countdown by exactly one; the tick that reaches zero clears the countdown
   * and starts recording, or returns to Idle when there is no stream.
   */
  lemma TickCountsDown(c: Controls, hasStream: bool)
    requires Inv(c) && PhaseOf(c).CountingDown?
    ensures var n := PhaseOf(c).n;
      PhaseOf(Step(c, Tick(hasStream)))
        == if n > 1 then CountingDown(n - 1) else if hasStream then Recording else Idle
  {
  }

  // ---------------------------------------------------------------------------------------
  // Runs

  /** Any sequence of events keeps the invariant. */
  lemma {:induction false} RunPreservesInv(c: Controls, es: seq<Event>)
    requires Inv(c)
    ensures Inv(Run(c, es))
    decreases |es|
  {
    if es != [] {
      RunPreservesInv(Step(c, es[0]), es[1..]);
    }
  }

  function Ticks(k: nat, hasStream: bool): (ts: seq<Event>)
    ensures |ts| == k
  {
    seq(k, _ => Tick(hasStream))
  }

  /** Number of steps of a run that create a media recorder: those after which one is capturing. */
  function RecorderStarts(c: Controls, es: seq<Event>): nat
    decreases |es|
  {
    if es == [] then 0
    else
      var c' := Step(c, es[0]);
      (if !c.media.Capturing? && c'.media.Capturing? then 1 else 0) + RecorderStarts(c', es[1..])
  }

  /** Number of stop callbacks of a run that arrive while a recording is running. */
  function StopCallbacks(c: Controls, es: seq<Event>): nat
    decreases |es|
  {
    if es == [] then 0
    else
      (if es[0] == Stopped && c.isRecording then 1 else 0) + StopCallbacks(Step(c, es[0]), es[1..])
  }

  function B2I(b: bool): int { if b then 1 else 0 }

  /**
   * Recorders and stop callbacks alternate: over any run, the recorders created plus one for
   * a recording already running equal the stop callbacks plus one for a recording still
   * running. So a second recorder is never created before the first one's stop callback.
   */
  lemma {:induction false} RecorderStartsMatchStops(c: Controls, es: seq<Event>)
    requires Inv(c)
    ensures RecorderStarts(c, es) + B2I(c.isRecording) == StopCallbacks(c, es) + B2I(Run(c, es).isRecording)
    ensures RecorderStarts(c, es) <= StopCallbacks(c, es) + 1
    decreases |es|
  {
    if es != [] {
      var c' := Step(c, es[0]);
      if c'.media.Capturing? && !c.media.Capturing? {
        RecorderCreatedOnlyByLastTick(c, es[0]);
      }
      RecorderStartsMatchStops(c', es[1..]);
    }
  }

  /** Ticks do nothing once no countdown is pending. */
  lemma {:induction false} TicksWithoutCountdown(c: Controls, k: nat, hasStream: bool)
    requires c.countdown.None?
    ensures Run(c, Ticks(k, hasStream)) == c
    ensures RecorderStarts(c, Ticks(k, hasStream)) == 0
    decreases k
  {
    if k > 0 {
      assert Ticks(k, hasStream)[1..] == Ticks(k - 1, hasStream);
      TicksWithoutCountdown(c, k - 1, hasStream);
    }
  }

  /**
   * From CountingDown(n), k ticks leave CountingDown(n - k) while k < n; from the n-th tick on
   * the controller is recording (with a stream) or Idle (without one), and a recorder has been
   * created exactly once (with a stream) or never (without one).
   */
  lemma {:induction false} TicksFromCountdown(c: Controls, k: nat, hasStream: bool)
    requires Inv(c) && PhaseOf(c).CountingDown?
    ensures var n := PhaseOf(c).n;
      && PhaseOf(Run(c, Ticks(k, hasStream)))
           == (if k < n then CountingDown(n - k) else if hasStream then Recording else Idle)
      && RecorderStarts(c, Ticks(k, hasStream)) == (if k < n || !hasStream then 0 else 1)
    decreases k
  {
    if k > 0 {
      var ts := Ticks(k, hasStream);
      assert ts[0] == Tick(hasStream);
      assert ts[1..] == Ticks(k - 1, hasStream);
      var c' := Step(c, Tick(hasStream));
      if c.countdown.value > 1 {
        TicksFromCountdown(c', k - 1, hasStream);
      } else {
        TicksWithoutCountdown(c', k - 1, hasStream);
      }
    }
  }

  /** The form, then three ticks with a stream: 3, 2, 1, then recording, with one recorder created. */
  lemma SubmitThenThreeTicks(c: Controls)
    requires Inv(c) && PhaseOf(c) == Idle
    ensures var c0 := Step(c, Submit);
      && PhaseOf(c0) == CountingDown(3)
      && PhaseOf(Run(c0, Ticks(1, true))) == CountingDown(2)
      && PhaseOf(Run(c0, Ticks(2, true))) == CountingDown(1)
      && PhaseOf(Run(c0, Ticks(3, true))) == Recording
      && RecorderStarts(c0, Ticks(3, true)) == 1
  {
    var c0 := Step(c, Submit);
    TicksFromCountdown(c0, 1, true);
    TicksFromCountdown(c0, 2, true);
    TicksFromCountdown(c0, 3, true);
  }

  // ---------------------------------------------------------------------------------------
  // Chunks and clips

  /** The chunks the data callback keeps: those of non-zero size, in arrival order. */
  function NonEmpty(cs: seq<Chunk>): (kept: seq<Chunk>)
    ensures |kept| <= |cs|
    ensures forall i :: 0 <= i < |kept| ==> |kept[i]| > 0
  {
    if cs == [] then []
    else if |cs[0]| > 0 then [cs[0]] + NonEmpty(cs[1..])
    else NonEmpty(cs[1..])
  }

  lemma {:induction false} NonEmptyAppend(cs: seq<Chunk>, c: Chunk)
    ensures NonEmpty(cs + [c]) == NonEmpty(cs) + (if |c| > 0 then [c] else [])
  {
    if cs == [] {
      assert [c][1..] == [];
    } else {
      assert (cs + [c])[1..] == cs[1..] + [c];
      NonEmptyAppend(cs[1..], c);
    }
  }

  /** Dropping the empty chunks loses no data: the blob holds every byte received. */
  lemma {:induction false} NonEmptyKeepsBytes(cs: seq<Chunk>)
    ensures Concat(NonEmpty(cs)) == Concat(cs)
  {
    if cs != [] {
      NonEmptyKeepsBytes(cs[1..]);
      if |cs[0]| > 0 {
        assert ([cs[0]] + NonEmpty(cs[1..]))[1..] == NonEmpty(cs[1..]);
      } else {
        assert cs[0] == [];
      }
    }
  }

  const DefaultPrefix: string := "recording-"
  const Extension: string := ".webm"

  /**
   * The download attribute of a clip's link: the clip's `filename` when it has a non-empty
   * one, otherwise "recording-" and its id; in both cases followed by ".webm".
   */
  function DownloadName(filename: Option<string>, id: string): (name: string)
    ensures |name| >= |Extension| && name[|name| - |Extension|..] == Extension
    ensures filename.Some? && filename.value != "" ==> name[..|name| - |Extension|] == filename.value
    ensures filename.None? || filename == Some("") ==> name[..|name| - |Extension|] == DefaultPrefix + id
  {
    var stem := if filename.Some? && filename.value != "" then filename.value else DefaultPrefix + id;
    var name := stem + Extension;
    assert name[..|name| - |Extension|] == stem;
    name
  }

  /**
   * A saved clip carries no filename, so its download name is always the default one, and the
   * clock reading it was saved at can be read back from it.
   */
  lemma ClipDownloadName(v: RecordedVideo, now: nat)
    requires v.id == Decimal.NatToString(now)
    ensures var name := DownloadName(None, v.id);
      && name == DefaultPrefix + v.id + Extension
      && |name| > |DefaultPrefix| + |Extension|
      && Decimal.AllDigits(name[|DefaultPrefix|..|name| - |Extension|])
      && Decimal.ParseDecimal(name[|DefaultPrefix|..|name| - |Extension|]) == now
  {
    var name := DownloadName(None, v.id);
    assert name == DefaultPrefix + v.id + Extension;
    assert name[|DefaultPrefix|..|name| - |Extension|] == v.id;
    Decimal.ParseNatToString(now);
  }

  // ---------------------------------------------------------------------------------------
  // The component

  class VideoRecorder {
    var isRecording: bool
    var pendingStart: bool
    var countdown: Option<nat>
    var filename: string
    var media: RecorderState
    /** `chunksRef.current`. */
    var chunks: seq<Chunk>
    /** Every chunk delivered since the last start, empty ones included. */
    ghost var received: seq<Chunk>
    var recordedVideos: seq<RecordedVideo>
    /** The browser's local storage, shared with the rest of the page. */
    const store: LocalStorage

    function State(): Controls
      reads this
    {
      Controls(isRecording, pendingStart, countdown, media)
    }

    ghost predicate Valid()
      reads this, store
    {
      && Inv(State())
      && chunks == NonEmpty(received)
      && recordedVideos == store.RecordedVideos()
    }

    /** The mounted component: idle, and the clip list loaded from storage. */
    constructor (store: LocalStorage)
      ensures Valid() && this.store == store
      ensures State() == Initial && filename == "" && chunks == []
      ensures recordedVideos == store.RecordedVideos()
    {
      var loaded := store.GetRecordedVideos();
      isRecording, pendingStart, countdown := false, false, None;
      filename := "";
      media := NoRecorder;
      chunks, received := [], [];
      recordedVideos := loaded;
      this.store := store;
    }

    /** The filename input. */
    method SetFilename(name: string)
      modifies this`filename
      ensures filename == name
    {
      filename := name;
    }

    /** `handleCountdownStart`; its callers only call it when idle. */
    method HandleCountdownStart()
      requires Valid() && PhaseOf(State()) == Idle
      modifies this`pendingStart, this`countdown
      ensures Valid()
      ensures State() == CountdownStart(old(State()))
      ensures PhaseOf(State()) == CountingDown(CountdownSeconds)
    {
      pendingStart := true;
      countdown := Some(CountdownSeconds);
    }

    /** Form submission: starts a countdown only when neither recording nor pending. */
    method Submit()
      requires Valid()
      modifies this`pendingStart, this`countdown
      ensures Valid()
      ensures State() == Step(old(State()), Event.Submit)
    {
      if !isRecording && !pendingStart {
        HandleCountdownStart();
      }
    }

    /**
     * `handleStartRecording`: with a stream, empties the chunk buffer and starts a recorder;
     * without one, changes nothing.
     */
    method HandleStartRecording(hasStream: bool)
      requires Valid() && PhaseOf(State()) == Idle
      modifies this`isRecording, this`media, this`chunks, this`received
      ensures Valid()
      ensures State() == StartRecording(old(State()), hasStream)
      ensures hasStream ==> chunks == [] && received == []
      ensures !hasStream ==> chunks == old(chunks) && received == old(received)
    {
      if hasStream {
        chunks := [];
        received := [];
        media := Capturing;
        isRecording := true;
      }
    }

    /**
     * The countdown timer firing: lowers the countdown by one, and when that reaches zero the
     * countdown effect clears it and the pending flag and starts recording.
     */
    method Tick(hasStream: bool)
      requires Valid()
      modifies this`countdown, this`pendingStart, this`isRecording, this`media, this`chunks, this`received
      ensures Valid()
      ensures State() == Step(old(State()), Event.Tick(hasStream))
      ensures if old(isRecording) || !isRecording then chunks == old(chunks) && received == old(received)
              else chunks == [] && received == []
    {
      match countdown {
        case None =>
        case Some(c) =>
          countdown := Some(c - 1);
          if countdown == Some(0) {
            countdown := None;
            pendingStart := false;
            HandleStartRecording(hasStream);
          }
      }
    }

    /** The recorder's data callback: keeps the chunk when its size is non-zero. */
    method OnDataAvailable(chunk: Chunk)
      requires Valid()
      modifies this`chunks, this`received
      ensures Valid()
      ensures received == old(received) + [chunk]
      ensures chunks == if |chunk| > 0 then old(chunks) + [chunk] else old(chunks)
    {
      NonEmptyAppend(received, chunk);
      received := received + [chunk];
      if |chunk| > 0 {
        chunks := chunks + [chunk];
      }
    }

    /** `handleStopRecording`: asks the current recorder, if any, to stop. */
    method HandleStopRecording()
      requires Valid()
      modifies this`media
      ensures Valid()
      ensures State() == Step(old(State()), StopRequest)
    {
      if media != NoRecorder {
        if media == Capturing {
          media := Stopping;
        }
      }
    }

    /**
     * The recorder's stop callback, delivered only while a recorder is running. `now` is the
     * clock in milliseconds and `timestamp` its ISO form. Builds one blob from the buffered
     * chunks, saves it as a clip and appends that clip to the list; the buffer is kept until
     * the next start.
     */
    method OnStop(now: nat, timestamp: string) returns (video: RecordedVideo)
      requires Valid() && isRecording
      modifies this`isRecording, this`media, this`recordedVideos, store
      ensures Valid()
      ensures State() == Step(old(State()), Stopped) && PhaseOf(State()) == Idle
      ensures video == RecordedVideo(Decimal.NatToString(now), BlobUrl(Blob(Concat(received), WebmType)), timestamp)
      ensures recordedVideos == old(recordedVideos) + [video]
      ensures store.RecordedVideos() == old(store.RecordedVideos()) + [video]
      ensures store.items == Appended(old(store.items), video)
    {
      var blob := Blob(Concat(chunks), WebmType);
      NonEmptyKeepsBytes(received);
      video := store.SaveVideoToLocalStorage(blob, now, timestamp);
      recordedVideos := recordedVideos + [video];
      isRecording := false;
      media := Inactive;
    }

    /** The end of a drag: a right swipe starts a countdown from idle, a left swipe stops a recording. */
    method OnDragEnd(swipeX: SwipeX, mobile: bool)
      requires Valid()
      modifies this`pendingStart, this`countdown, this`media
      ensures Valid()
      ensures State() == Step(old(State()), Swipe(swipeX, mobile))
    {
      if !mobile {
        return;
      }
      if swipeX == SwipeRight && !isRecording && !pendingStart {
        HandleCountdownStart();
      } else if swipeX == SwipeLeft && isRecording {
        HandleStopRecording();
      }
    }
  }

  /** An empty chunk followed by `data` concatenates to `data`. */
  lemma EmptyChunkThenData(data: Chunk)
    ensures Concat([[], data]) == data
  {
    assert [[], data][1..] == [data];
    assert [data][1..] == [];
    assert Concat([data]) == data + Concat([]);
  }

  /**
   * On a mobile device with a camera stream, a right swipe from Idle and three ticks start a
   * recording with an empty chunk buffer; the clip lists are untouched.
   */
  method SwipeToRecord(r: VideoRecorder)
    requires r.Valid() && PhaseOf(r.State()) == Idle
    modifies r
    ensures r.Valid() && r.State() == Controls(true, false, None, Capturing) && r.received == []
    ensures r.recordedVideos == old(r.recordedVideos)
  {
    r.OnDragEnd(SwipeRight, true);
    assert r.State() == Controls(false, true, Some(3), r.media);
    r.Tick(true);
    assert r.State() == Controls(false, true, Some(2), r.media);
    r.Tick(true);
    assert r.State() == Controls(false, true, Some(1), r.media);
    r.Tick(true);
  }

  /**
   * One full session on a mobile device with a camera stream: a right swipe, three ticks,
   * two chunks of which one is empty, a left swipe and the stop callback. Exactly one clip is
   * appended, holding the bytes of the non-empty chunk.
   */
  method SwipeSession(r: VideoRecorder, data: Chunk, now: nat, timestamp: string) returns (video: RecordedVideo)
    requires r.Valid() && PhaseOf(r.State()) == Idle
    modifies r, r.store
    ensures r.Valid() && PhaseOf(r.State()) == Idle
    ensures r.recordedVideos == old(r.recordedVideos) + [video]
    ensures video.url == BlobUrl(Blob(data, WebmType))
  {
    SwipeToRecord(r);
    r.OnDataAvailable([]);
    r.OnDataAvailable(data);
    assert r.received == [[], data];
    r.OnDragEnd(SwipeLeft, true);
    EmptyChunkThenData(data);
    video := r.OnStop(now, timestamp);
  }
}
