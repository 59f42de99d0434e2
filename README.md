# Face-tracking video recorder: a verified model of its logic

The application is a browser page that shows the camera, is meant to draw a box around every
face a face detector reports and to give positioning hints while "calibrating" (as written the
page never mounts that overlay; see "Behaviour of the code worth knowing" below), zooms the
camera view on a pinch, and records clips (started by a form or a right swipe after a three-second countdown,
stopped by a button or a left swipe) that it keeps in the browser's local storage.

This project models the sequential logic under that wiring, over Dafny's unbounded `real` and
`int`:

- `recording.dfy` (module `RecordingController`): the recording controller of
  `components/VideoRecorder.tsx`. The control state (`isRecording`, `pendingStart`,
  `countdown`, and the state of the media recorder held in `mediaRecorderRef`) is specified by
  a pure transition function `Step` over events (form submit, one-second tick, data chunk,
  stop request, stop callback, swipe). The class `VideoRecorder` keeps that state in fields
  together with the chunk buffer, the typed filename and the clip list, and each of its
  handlers is proved to take exactly the step `Step` describes. Lemmas about `Step` and `Run`
  prove the invariants, that a countdown cannot be cancelled, that three ticks create a
  recorder exactly once, that a recorder is created only by the last tick of a countdown, and
  that over any run a second recorder is never created before the previous one's stop
  callback. The download name of a clip is a pure
  function.
- `face_overlay.dfy` (module `FaceOverlay`): the calibration hint of
  `components/FaceTracker.tsx`, proved equal to a policy stated on the normalised box and the
  frame's aspect ratio; the rectangle and colour of each face marker; the face-count label; and
  the class `FaceTracker` whose `DrawFaceMarker` loop draws the markers and builds `faces` and
  `feedback` in detection order.
- `pinch_zoom.dfy` (module `PinchZoom`): the pinch scale `1 + d/200` clamped to [1, 3] of
  `components/CameraView.tsx`, and the class `CameraView` whose `scale` only changes on mobile.
- `storage.dfy` (module `Storage`): the clip list in `lib/storage.ts`, an append-only list under
  the key "recordedVideos" of a key-value store, where a missing key reads as the empty list;
  and the removal of that key by "Clear Recordings" in `pages/index.tsx`.
- `media.dfy`, `decimal.dfy`, `wrappers.dfy`: the platform values the core handles (chunks,
  blobs, object URLs), the decimal rendering of integers used for clip ids and the face count,
  and an `Option` type.

Inputs that come from outside the page's logic are parameters: whether the device is mobile
(the user-agent test), whether a camera stream is present, the swipe direction, the pinch
offset, whether the canvas has a 2-D context, the detector's boxes, the clock in milliseconds
and its ISO text.

Behaviour of the code worth knowing:

- The clip record has no filename field (lib/storage.ts:6). The name typed into the form
  (components/VideoRecorder.tsx:114) is never stored, so every clip downloads as
  `recording-<id>.webm` (components/VideoRecorder.tsx:163, `RecordingController.ClipDownloadName`).
- The chunk buffer is not cleared when a clip is saved (components/VideoRecorder.tsx:73-80);
  it is cleared when the next recording starts (components/VideoRecorder.tsx:65).
- Clip ids are the clock in milliseconds (lib/storage.ts:4); two clips saved in the same
  millisecond get the same id, so uniqueness of ids is not claimed.
- The vertical edge test of the calibration hint uses the margin computed from the frame
  width, not from its height (components/FaceTracker.tsx:22-28,
  `FaceOverlay.VerticalMarginUsesWidth`).
- The page mounts the face overlay only when `videoRef.current` is set
  (pages/index.tsx:20), but the ref created at pages/index.tsx:9 is attached to no element
  (the camera view keeps its own ref, components/CameraView.tsx:9). Read as written, the
  overlay therefore never mounts. The model describes `FaceTracker` as it behaves once
  mounted with a video element.
- The pinch gesture is configured with `scaleBounds` from 1 to 3
  (components/CameraView.tsx:31), so the offset the gesture library hands to the handler is
  its own scale factor, about 1 to 3, not a pixel distance. Read that way, `1 + d/200` stays
  between 1.005 and 1.015 and the zoom range up to 3 is never reached
  (`PinchZoom.PinchScaleForBoundedOffset`). The other pinch lemmas treat the offset as an
  unconstrained input.

Modelling choices:

- The tick that lowers the countdown to 0 also performs the countdown effect (clear the
  countdown, clear `pendingStart`, start recording) in the same step. Every handler that could
  run between the render showing 0 and that effect ignores the event (they are guarded by
  `pendingStart` or `isRecording`), so nothing observable is lost, and between events a
  non-null countdown is 1, 2 or 3.
- The media recorder's state is `NoRecorder`, `Capturing`, `Stopping` (asked to stop, stop
  callback not yet delivered) or `Inactive`. Asking an inactive recorder to stop does nothing,
  as the MediaRecorder specification of the W3C prescribes. The stop callback may arrive
  whenever a recorder is running (the platform also stops a recorder on its own, for instance
  when the camera track ends), so `OnStop` requires only `isRecording`.
- `recordedVideos` equals the stored list as long as this page is the only writer of the
  key: it is loaded from storage when the component mounts and every stop appends the same
  record to both. A second tab breaks this: a save re-reads and rewrites the whole stored
  list (lib/storage.ts:7-9), while this page appends to its own previous list
  (components/VideoRecorder.tsx:78).
- An object URL is modelled as a handle that denotes its blob; its text is not modelled.

## Model

| member | source | states |
|---|---|---|
| `Decimal.NatToString` | lib/storage.ts:4 | The id text of a clock reading is a non-empty string of decimal digits with no leading zero (except "0"), one digit exactly for values below 10 |
| `Decimal.ParseNatToString` | lib/storage.ts:4 | Parsing the rendered id gives back the clock reading (round trip) |
| `Decimal.NatToStringInjective` | lib/storage.ts:4 | Different clock readings give different ids |
| `Storage.ReadOrEmpty` | lib/storage.ts:7 | A missing key reads as the empty list; a present one reads as the list stored under it |
| `Storage.Appended` | lib/storage.ts:7-9 | Saving writes the clip-list key (adding it when missing) and leaves every other key and its value untouched |
| `Storage.LocalStorage.SaveVideoToLocalStorage` | lib/storage.ts:3-11 | The record is (decimal clock, URL of the blob, timestamp) with no filename; the stored list becomes the previous list (empty when the key was missing) followed by that record, which is also the value returned |
| `Storage.LocalStorage.GetRecordedVideos` | lib/storage.ts:13-15 | Returns the stored list, and the empty list when the key is missing |
| `Storage.LocalStorage.RemoveItem` | pages/index.tsx:12 | Removes exactly the given key from the store |
| `Storage.ClearRecordings` | pages/index.tsx:11-14 | After clearing, the store is the old store without the clip-list key: the list reads as empty, every other key keeps its value and no key is added |
| `Storage.SaveThenRead` | lib/storage.ts:7-9 | Reading after a save gives the previous list followed by the saved record, one entry longer; saving into a missing key gives a one-element list |
| `Storage.SaveAllAppends` | lib/storage.ts:7-9 | Saving several records one after the other appends exactly those records, in order, after the earlier ones |
| `Storage.RemovedReadsEmpty` | pages/index.tsx:12 | Once the key is removed the clip list reads as empty |
| `PinchZoom.Clamp` | components/CameraView.tsx:24 | The clamped scale lies in [1, 3]; a value already in range is unchanged; values below or above go to the nearer bound |
| `PinchZoom.PinchScale` | components/CameraView.tsx:23-24 | The pinch scale is 1 for d <= 0, exactly 1 + d/200 for d in [0, 400], 3 for d >= 400, and always in [1, 3] |
| `PinchZoom.ClampIdempotent` | components/CameraView.tsx:24 | Clamping a clamped value changes nothing |
| `PinchZoom.PinchScaleMonotone` | components/CameraView.tsx:23-24 | A larger pinch offset never gives a smaller scale |
| `PinchZoom.PinchScaleReachesEveryScale` | components/CameraView.tsx:23-24 | For an unconstrained offset, every scale in [1, 3] is produced by the offset 200 * (s - 1) |
| `PinchZoom.PinchScaleForBoundedOffset` | components/CameraView.tsx:23-31 | An offset between 1 and 3, the range `scaleBounds` gives the library's pinch scale, yields a zoom between 1.005 and 1.015 |
| `PinchZoom.CameraView.constructor` | components/CameraView.tsx:11 | The initial scale is 1 |
| `PinchZoom.CameraView.OnPinch` | components/CameraView.tsx:21-26 | On mobile the scale becomes the clamped pinch scale; otherwise it is unchanged; it stays in [1, 3] |
| `FaceOverlay.GetCalibrationFeedback` | components/FaceTracker.tsx:16-39 | The hint is one of the four messages |
| `FaceOverlay.FeedbackIsNormalized` | components/FaceTracker.tsx:18-37 | On a frame of non-zero size the hint equals the policy on the normalised box: re-centre when the centre is within 0.15 of the left or right edge or within 0.15 * width/height of the top or bottom edge, else "Move closer" below width 0.15, "Move farther" above 0.6, else "Face centered" |
| `FaceOverlay.EdgeOverridesSize` | components/FaceTracker.tsx:24-30 | A "Move face to center" hint does not depend on the box's width or height |
| `FaceOverlay.SizeThresholdsAreStrict` | components/FaceTracker.tsx:31-37 | A face that is not near an edge and whose width is exactly 0.15 or 0.6 of the frame is "Face centered" |
| `FaceOverlay.CenteredAt640x480` | components/FaceTracker.tsx:18-36 | At 640x480 a box centred at (0.5, 0.5) of width 0.3 gives "Face centered" |
| `FaceOverlay.VerticalMarginUsesWidth` | components/FaceTracker.tsx:22-28 | At 640x480 a centre at 0.18 of the height is within the width-based margin (96 px) and asks to re-centre |
| `FaceOverlay.StrokeStyle` | components/FaceTracker.tsx:56 | The marker is lime exactly for index 0 and red exactly for every other index |
| `FaceOverlay.MarkerRect` | components/FaceTracker.tsx:58-63 | The pixel rectangle is centred on (xCenter * W, yCenter * H) and is width * W by height * H |
| `FaceOverlay.Marker` | components/FaceTracker.tsx:56-63 | The marker of face `idx` is lime exactly for index 0, has line width 2, and is the box scaled to the canvas: centred on (xCenter * W, yCenter * H), width * W by height * H |
| `FaceOverlay.Detected` | components/FaceTracker.tsx:52 | An absent detection list draws nothing; a present one is drawn as given |
| `FaceOverlay.MarkerInsideCanvas` | components/FaceTracker.tsx:58-63 | A box inside the unit square gives a rectangle inside the canvas |
| `FaceOverlay.FaceCountLabel` | components/FaceTracker.tsx:89-97 | 0 faces gives the warning, 1 gives "1 face detected", and n > 1 gives the decimal n followed by " faces detected" |
| `FaceOverlay.FaceCountLabelInjective` | components/FaceTracker.tsx:89-97 | Different face counts give different labels |
| `FaceOverlay.FaceTracker.StatusLabel` | components/FaceTracker.tsx:89-91 | The warning is shown exactly when no face was found in the last frame |
| `FaceOverlay.FaceTracker.constructor` | components/FaceTracker.tsx:11-13 | Calibration starts off, with no feedback and no faces |
| `FaceOverlay.FaceTracker.ToggleCalibrating` | components/FaceTracker.tsx:108 | The button flips calibration mode |
| `FaceOverlay.FaceTracker.DrawFaceMarker` | components/FaceTracker.tsx:41-72 | Without a context or a video nothing changes; otherwise the canvas takes the video's size, holds one marker per detection in order (lime first, red after), `faces` is the detected boxes in order, and `feedback` is the hint per box in the same order while calibrating and empty otherwise; an absent detection list counts as empty |
| `RecordingController.InitialSatisfiesInv` | components/VideoRecorder.tsx:12-18 | The initial state satisfies the invariant and is Idle |
| `RecordingController.CountdownStart` | components/VideoRecorder.tsx:58-61 | From Idle it gives CountingDown(3) and keeps the invariant; the recording flag and the recorder are untouched |
| `RecordingController.StartRecording` | components/VideoRecorder.tsx:63-84 | From Idle it gives Recording with a capturing recorder when there is a stream, and changes nothing without one |
| `RecordingController.StopRecording` | components/VideoRecorder.tsx:86-90 | Afterwards no recorder is capturing; a capturing one is stopping; the phase is unchanged until the stop callback; the invariant is kept |
| `RecordingController.Step` | components/VideoRecorder.tsx:27-61 | Every event (swipe, tick, countdown effect, start, stop, form) keeps: `pendingStart` exactly when `countdown` is non-null; a non-null countdown in 1..3; never both recording and pending; recording exactly while the recorder runs or is stopping. Only the stop callback ends a recording |
| `RecordingController.RecorderCreatedOnlyByLastTick` | components/VideoRecorder.tsx:46-84 | A recorder starts capturing only on the tick that ends a countdown at 1, with a stream, and never while a recording runs |
| `RecordingController.RunPreservesInv` | components/VideoRecorder.tsx:46-61 | Any sequence of events keeps the invariant |
| `RecordingController.StartRequestOnlyFromIdle` | components/VideoRecorder.tsx:29-31 | A start request from Idle gives CountingDown(3) and is ignored in every other state; a right swipe on mobile acts exactly as the form |
| `RecordingController.SwipesNeedMobile` | components/VideoRecorder.tsx:28 | Off mobile every swipe leaves the state unchanged |
| `RecordingController.SwipeLeftStopsOnlyWhileRecording` | components/VideoRecorder.tsx:32-35 | A left swipe does nothing unless recording, and then acts as the stop button |
| `RecordingController.CountdownNotCancellable` | components/VideoRecorder.tsx:46-61 | While counting down, no event other than the tick changes the phase |
| `RecordingController.TickCountsDown` | components/VideoRecorder.tsx:46-56 | A tick lowers a countdown above 1 by exactly one; from 1 it goes to Recording with a stream and to Idle without |
| `RecordingController.TicksWithoutCountdown` | components/VideoRecorder.tsx:54 | With no countdown pending, ticks change nothing and create no recorder |
| `RecordingController.TicksFromCountdown` | components/VideoRecorder.tsx:46-56 | From CountingDown(n), k < n ticks give CountingDown(n - k) and no recorder; k >= n ticks give Recording with exactly one recorder created (with a stream) or Idle with none (without) |
| `RecordingController.SubmitThenThreeTicks` | components/VideoRecorder.tsx:46-61 | From Idle, the form then ticks pass through 3, 2, 1 and the third tick starts recording, creating exactly one recorder |
| `RecordingController.RecorderStartsMatchStops` | components/VideoRecorder.tsx:63-84 | Over any run, recorders created plus one for a recording already running equal stop callbacks received while recording plus one for a recording still running; so at most one more recorder is created than stop callbacks arrive |
| `RecordingController.NonEmpty` | components/VideoRecorder.tsx:68-72 | The kept chunks are all of non-zero size and no more numerous than those received |
| `RecordingController.NonEmptyAppend` | components/VideoRecorder.tsx:68-72 | A new chunk is kept at the end when its size is non-zero and dropped otherwise |
| `RecordingController.NonEmptyKeepsBytes` | components/VideoRecorder.tsx:68-74 | Dropping the empty chunks loses no bytes: the blob equals the concatenation of every chunk received |
| `RecordingController.DownloadName` | components/VideoRecorder.tsx:163 | The name ends in ".webm"; its stem is the filename when that is non-empty and "recording-" plus the id when it is absent or empty |
| `RecordingController.ClipDownloadName` | components/VideoRecorder.tsx:163 | A saved clip always downloads as "recording-<id>.webm", and the clock reading can be read back from that name |
| `RecordingController.VideoRecorder.constructor` | components/VideoRecorder.tsx:92-94 | The mounted recorder is idle with no chunks and shows the stored clip list |
| `RecordingController.VideoRecorder.SetFilename` | components/VideoRecorder.tsx:114 | The typed name is kept in `filename` and nowhere else |
| `RecordingController.VideoRecorder.HandleCountdownStart` | components/VideoRecorder.tsx:58-61 | Sets `pendingStart` and a countdown of 3 |
| `RecordingController.VideoRecorder.Submit` | components/VideoRecorder.tsx:105-108 | Takes the `Submit` step: starts a countdown only when neither recording nor pending |
| `RecordingController.VideoRecorder.HandleStartRecording` | components/VideoRecorder.tsx:63-84 | With a stream, empties the chunk buffer, starts a recorder and sets `isRecording`; without one, changes nothing |
| `RecordingController.VideoRecorder.Tick` | components/VideoRecorder.tsx:46-56 | Takes the `Tick` step; the chunk buffer is emptied exactly when that step starts a recording |
| `RecordingController.VideoRecorder.OnDataAvailable` | components/VideoRecorder.tsx:68-72 | A chunk of size 0 is discarded; a larger one is appended to the buffer |
| `RecordingController.VideoRecorder.HandleStopRecording` | components/VideoRecorder.tsx:86-90 | Takes the stop-request step: a running recorder moves to stopping, anything else is unchanged |
| `RecordingController.VideoRecorder.OnStop` | components/VideoRecorder.tsx:73-80 | Saves one clip whose blob holds every byte received since the start, appends exactly that clip to both the displayed and the stored list, leaves every other key of the store as it was, and returns to Idle; the buffer is kept |
| `RecordingController.VideoRecorder.OnDragEnd` | components/VideoRecorder.tsx:27-36 | Takes the swipe step: ignored off mobile, a right swipe starts a countdown from Idle, a left swipe stops a recording |
| `RecordingController.SwipeToRecord` | components/VideoRecorder.tsx:27-66 | On mobile with a stream, a right swipe from Idle and three ticks leave the controller recording with a capturing recorder and an empty buffer, the clip list unchanged |
| `RecordingController.SwipeSession` | components/VideoRecorder.tsx:27-80 | A right swipe, three ticks, an empty and a non-empty chunk, a left swipe and the stop callback append exactly one clip, holding the non-empty chunk's bytes, and end Idle |

## Left out

- Face detection itself (the MediaPipe model, loaded from a CDN and fed camera frames): the
  model takes the detected boxes as an input sequence; landmarks and scores are not modelled.
- The MediaRecorder and Blob platform APIs: a recorder is an abstract state, a blob is its
  bytes and type, and the 100 ms chunking is not modelled.
- Camera acquisition and track teardown in `components/CameraView.tsx` (asynchronous device
  I/O); whether a stream is present is an input.
- Swipe and pinch recognition (velocity 0.3, distance 30, rubber-banding) inside the gesture
  library; the swipe direction and pinch offset are inputs.
- The user-agent test for mobile devices; it is a boolean input.
- Timing: the one-second timer is the `Tick` event, React's effect ordering is collapsed into
  single steps as described above, and the re-initialisation of the detector when calibration
  is toggled is not modelled.
- JSON parsing and serialisation of the stored list (a corrupted slot would make the source
  throw), the text of object URLs, `Date.now` and `toISOString`: the store holds the parsed
  list and the clock is a parameter.
- Failing storage: `localStorage.getItem` and `setItem` can throw (storage disabled, quota
  exceeded; lib/storage.ts:7, :9, :14). A throw inside the stop callback at
  components/VideoRecorder.tsx:77 skips lines 78-79, so `isRecording` stays true with an
  inactive recorder; a throw on mount (components/VideoRecorder.tsx:93) leaves the list
  unloaded. In the model `Storage.LocalStorage.SaveVideoToLocalStorage`,
  `Storage.LocalStorage.GetRecordedVideos` and `RecordingController.VideoRecorder.OnStop`
  always succeed.
- IEEE floating-point rounding and NaN: all geometry and zoom arithmetic is over the reals.
- The page reload after "Clear Recordings" (pages/index.tsx:13): a reloaded page is a newly
  constructed `VideoRecorder` over the same store.
- The lifetime of object URLs: a URL made by `URL.createObjectURL` (lib/storage.ts:5) is
  revoked when the document unloads, so after any reload, including the one at
  pages/index.tsx:13, the stored clips point at nothing. In the model a `BlobUrl` keeps
  denoting its blob, so `RecordingController.VideoRecorder.constructor` shows the stored clip
  list as playable.
- A failing recorder construction: `new MediaRecorder(stream, {mimeType: 'video/webm'})`
  (lib/videoRecorder.ts:6) can throw, for instance when the type is unsupported. The countdown
  effect has then already cleared the countdown and `pendingStart`
  (components/VideoRecorder.tsx:49-51), so the page returns to Idle without recording. In
  the model `RecordingController.VideoRecorder.HandleStartRecording` always succeeds when
  there is a stream.
- Concurrent writers: another tab saving clips to the same key is not modelled; the class
  invariant that the displayed list equals the stored one holds only for a single writer.
- The mounting condition of the face overlay in pages/index.tsx:20: the model takes the
  component as mounted with a video element (see above).
- The range of the pinch offset: it is fixed by the gesture library's `scaleBounds` and
  rubber-band configuration (components/CameraView.tsx:31); the model takes any real offset.
- Presentation: the countdown text ("Go!" at 0), the per-face "Face n: hint" lines, the
  "Multiple faces detected" badge, disabled-button styling and all other markup.
