# useAudioRecorder: recording and playback session controller

This project models the React hook `useAudioRecorder` of react-audio-recorder.
The hook drives one recording session. `startRecording` asks for the
microphone, builds a `MediaRecorder`, collects its data chunks and runs a
one-second interval for the elapsed time. `stopRecording` stops the recorder,
the stream's tracks and the interval. The recorder's `onstop` joins the chunks
into a Blob, gives it an object URL and passes it to `onSave`.
`togglePlayback` plays or pauses that URL in an `Audio` element, and
`deleteRecording` restores the initial state and calls `onDelete`. An effect
keyed on `audioUrl` has a cleanup that stops the current stream's tracks,
clears the current interval and revokes the URL it captured. React runs that
cleanup after the render that commits a changed `audioUrl`, and when the
component unmounts.

The repository holds two copies of the hook. Each copy is modelled in the
form of its source: the handlers change refs, a chunk list and a state record
in place.

- `media.dfy` (module `Media`): bytes, chunks, object URLs (`NoUrl` stands for
  the empty string), the state record `View`, the `Audio` element as a small
  class, and the browser objects and callbacks the hook acts on (`Host`: which
  recorders record, which streams are live, which intervals run, the Blob
  behind each URL, the `revokeObjectURL` calls, the `onSave` and `onDelete`
  calls). It also holds `Concat`, the bytes of `new Blob(chunks)`, and its
  arrival-order lemmas.
- `session.dfy` (module `Session`): the state one mounted hook keeps (`Core`)
  and, as functions on it, the handlers both copies implement the same way:
  `onstop`, `stopRecording`, `togglePlayback`, `onended`, `deleteRecording`,
  the effect re-run (`Commit`) and unmounting. It also holds the invariant
  `UrlsAccounted`: each created URL is either the current `audioUrl` or has
  been revoked exactly once.
- `hooks_recorder.dfy` (module `HooksRecorder`) models
  src/hooks/useAudioRecorder.ts, the copy the `AudioRecorder` component
  imports. It has that copy's `startRecording`, `ondataavailable` and tick as
  functions. It has the event type, `Step` and `Run`, and the lemmas. Its class
  `Recorder` has the state record's fields, the refs and the element as fields.
  Each handler method is proved equal to the matching transition function
  and keeps `Valid()` (the invariant `UrlsAccounted`); `Unmount` instead
  ensures that every created URL has been revoked once, which ends the
  invariant because the current URL is revoked too. The helpers `SetState`
  and `CleanupEffect` are proved equal to `Commit` and `Cleanup` and carry no
  invariant of their own.
- `src_recorder.dfy` (module `SrcRecorder`) models src/useAudioRecorder.ts in
  the same shape, with `Sane` in place of `UrlsAccounted`. That copy differs in four ways
  the model sees:
  - every interval has its own `seconds` counter, kept in `State.seconds`;
  - `startRecording` does not reset `duration`;
  - the interval stops the recording when its counter reaches `maxDuration`;
  - `ondataavailable` throws when `data` is missing.

  It also calls `mediaRecorder.start(1000)` before its `setState`, where the
  hooks copy does the reverse; the order matters only when `start()` throws,
  which the model leaves out.

The browser is represented by values. Each stream, recorder, interval and
object URL gets an id (its creation index), and the model records whether it
is still live. `getUserMedia` and the `MediaRecorder` constructor become
the parameter `Access` (`Denied`, `RecorderFails`, `Granted`). Only the class
methods name the recorder or interval whose callback fires, and only in their
`requires`. The event types of `Step` and `Run` carry no recorder id, and
only the src copy's tick names its interval, so `Run` also accepts
sequences the browser cannot deliver, such as a tick before any start. The
lemmas about `Run` hold for all of them, so they hold in particular for
those the browser can deliver. `onSave` and
`onDelete` become entries in `Host.saved` and `Host.deletes`.

The model follows the code as written, also where it departs from an
idealised recorder:
- no `Requesting` phase;
- no guard against a second `startRecording`;
- no clip check in `togglePlayback`;
- `deleteRecording` stops neither the recorder nor the element and does not
  clear the chunks;
- a stream whose recorder could not be built keeps its tracks live;
- an `onstop` of an earlier recording, arriving after a new start, stops the
  new recording's stream and interval, while the hook never stops the new
  recorder and `isRecording` stays true; it also saves the chunks the new
  start emptied, so the earlier recording's bytes never reach `onSave`;
- the hooks copy's auto-stop tests the duration from before the tick.

## Model

| member | source | states |
|---|---|---|
| `Media.Concat` | src/hooks/useAudioRecorder.ts:67 | the Blob built from the chunks is as long as the chunks together |
| `Media.ConcatSplit` | src/hooks/useAudioRecorder.ts:67 | joining chunks agrees with splitting the chunk list at any point |
| `Media.ChunkInPlace` | src/hooks/useAudioRecorder.ts:67 | chunk i sits in the Blob right after the bytes of chunks 0..i-1, so the Blob keeps arrival order |
| `Media.Release` | src/hooks/useAudioRecorder.ts:90 | `ref.current?.stop()` stops exactly the object the ref holds, if any, and nothing else |
| `Media.Cleanup` | src/hooks/useAudioRecorder.ts:124-134 | the effect cleanup stops the tracks of the stream in `streamRef`, clears the interval in `timerRef`, revokes the captured URL once when it is not empty, and touches no recorder, URL, `onSave` or `onDelete` |
| `Session.Commit` | src/hooks/useAudioRecorder.ts:119-135 | `setState` installs the new record; when `audioUrl` is unchanged the outside world is untouched, otherwise the effect cleanup releases the ref'd stream and interval and revokes the old URL; refs, chunks and the element stay |
| `Session.RecorderStopped` | src/hooks/useAudioRecorder.ts:66-71 | `onstop` creates a fresh URL for the joined chunks, stores it in `audioUrl`, calls `onSave` once with the joined bytes, revokes the previous URL through the effect cleanup, which also stops the tracks of the stream and clears the interval the refs hold at that moment (even a later recording's), and keeps the chunks, the refs and the recorder |
| `Session.Stop` | src/hooks/useAudioRecorder.ts:87-96 | no change unless a recorder exists and `isRecording` holds; otherwise the recorder, the stream's tracks and the interval are stopped and `isRecording` becomes false, with `duration`, `audioUrl` and `isPlaying` unchanged |
| `Session.Toggle` | src/hooks/useAudioRecorder.ts:98-107 | `isPlaying` flips; when it was playing the element pauses, otherwise its `src` becomes `audioUrl` and it plays; no check that a clip exists |
| `Session.Ended` | src/hooks/useAudioRecorder.ts:120-122 | the ended event always leaves `isPlaying` false and changes nothing else in the record, the refs or the outside world |
| `Session.Delete` | src/hooks/useAudioRecorder.ts:109-117 | the record becomes exactly the initial one and `onDelete` is called once; when a URL was set, the effect cleanup stops the current tracks and interval and revokes that URL; the recorder, the element, the chunks and the refs are left as they were |
| `Session.Unmount` | src/hooks/useAudioRecorder.ts:124-134 | the unmount cleanup stops the tracks in `streamRef`, clears the interval in `timerRef` and revokes the current URL when it is not empty; the record, the refs, the element, the chunks, recorders, `onSave` and `onDelete` are untouched |
| `Session.CommitKeepsUrls` | src/hooks/useAudioRecorder.ts:131-135 | a state update that keeps or clears `audioUrl` keeps every created URL current or revoked exactly once |
| `Session.RecorderStoppedKeepsUrls` | src/hooks/useAudioRecorder.ts:66-71 | replacing the URL in `onstop` revokes the old URL once and never the new one |
| `Session.DeleteKeepsUrls` | src/hooks/useAudioRecorder.ts:109-117 | deleting keeps every created URL current or revoked exactly once |
| `Session.UnmountRevokesEveryUrl` | src/hooks/useAudioRecorder.ts:124-135 | after unmounting, every URL ever created has been revoked exactly once, and nothing else was revoked |
| `Session.ToggleTwice` | src/useAudioRecorder.ts:100-108 | toggling twice restores `isPlaying` |
| `Session.DeleteTwice` | src/hooks/useAudioRecorder.ts:109-117 | deleting twice leaves the same state as deleting once, except that `onDelete` is called again |
| `Session.DeleteWhilePlaying` | src/hooks/useAudioRecorder.ts:109-117 | deleting while a clip plays clears `isPlaying`, but the element keeps playing a URL that the delete has just revoked |
| `HooksRecorder.Start` | src/hooks/useAudioRecorder.ts:47-85 | refused access changes nothing; a failing recorder constructor leaves the record as it was, with the new stream held and live; a granted start empties the chunks and sets `isRecording` with `duration` 0, keeps `isPlaying` and `audioUrl`, and starts a new recorder and a new interval |
| `HooksRecorder.DataAvailable` | src/hooks/useAudioRecorder.ts:60-64 | a chunk is appended at the end only when present and non-empty; otherwise nothing changes |
| `HooksRecorder.Tick` | src/hooks/useAudioRecorder.ts:76-81 | a tick raises `duration` by exactly 1; below `maxDuration` nothing else changes; at or above it (tested before the increment) the result is exactly `stopRecording` applied after the increment |
| `HooksRecorder.StepKeepsUrls` | src/hooks/useAudioRecorder.ts:119-135 | every command and callback keeps each created URL current or revoked exactly once |
| `HooksRecorder.RunKeepsUrls` | src/hooks/useAudioRecorder.ts:119-135 | any sequence of commands and callbacks keeps that invariant |
| `HooksRecorder.LifetimeRevokesEveryUrlOnce` | src/hooks/useAudioRecorder.ts:124-135 | from mount through any events to unmount, each created URL is revoked exactly once and nothing else is revoked |
| `HooksRecorder.TicksCount` | src/hooks/useAudioRecorder.ts:76-81 | k ticks add exactly k to `duration` and do not stop a recording whose duration stays within `maxDuration` |
| `HooksRecorder.TicksAfterStart` | src/__tests__/AudioRecorder.test.tsx:71-93 | after a granted start, k ticks give `duration == k` (5 after five seconds) |
| `HooksRecorder.StopsAfterMax` | src/hooks/useAudioRecorder.ts:76-81 | for a `maxDuration` of 0 or more and one mutable state record, a recording started with `duration` 0 is still recording after tick `maxDuration` and is stopped by tick `maxDuration + 1`, because the check reads `duration` before the increment |
| `HooksRecorder.DoubleStartLeaks` | src/hooks/useAudioRecorder.ts:47-81 | a second granted start overwrites the refs: the first stream stays live and the first interval keeps running, even after `stopRecording` |
| `HooksRecorder.LateOnStop` | src/hooks/useAudioRecorder.ts:66-71 | an `onstop` of the first recording arriving after a second start stops the second recording's stream and clears its interval through the effect cleanup, while the hook never stops the second recorder and `isRecording` stays true; `onSave` receives the emptied chunk list, not the first recording's bytes |
| `HooksRecorder.DatasKeep` | src/hooks/useAudioRecorder.ts:60-64 | any series of `ondataavailable` events appends exactly the present, non-empty chunks, in arrival order, and changes nothing else |
| `HooksRecorder.RoundTrip` | src/hooks/useAudioRecorder.ts:57-96 | from any state with a known `audioUrl`: a granted start, any series of `data` values, `stopRecording` and the recorder's `onstop` call `onSave` once with the kept chunks joined in arrival order, whose length is the sum of their lengths; the fresh URL holds those bytes and becomes `audioUrl`; `isRecording` is false; this recording's recorder, stream and interval are stopped, and no other is |
| `HooksRecorder.RecordThreeChunks` | src/hooks/useAudioRecorder.ts:58-71 | start, chunks of 10, 20 and 15 bytes, stop and the recorder's `onstop`: `onSave` is called once with the 45 bytes in order; the recorder, the stream and the interval are stopped |
| `HooksRecorder.FinalDataBeforeOnStop` | src/hooks/useAudioRecorder.ts:60-71 | a recorder delivers its last `dataavailable` events after `stop()` and before `onstop`; those chunks still reach the blob: after a granted start, data `ds`, `stopRecording`, data `fs` and `onstop`, `onSave` is called once with the kept chunks of `ds` followed by those of `fs`, that blob gets the fresh URL, which becomes `audioUrl`, and `isRecording` is false |
| `HooksRecorder.PlayThenDelete` | src/hooks/useAudioRecorder.ts:98-122 | the play and end steps follow `togglePlayback` and `onended`; record, stop and delete follow the test at src/__tests__/AudioRecorder.test.tsx:95-124, which never plays. After a recording, play sets `isPlaying` and plays the clip's URL, the end clears `isPlaying` and keeps the clip, and delete restores the initial record, calls `onDelete` once and revokes the clip's URL once |
| `HooksRecorder.Recorder.constructor` | src/hooks/useAudioRecorder.ts:34-45 | the first render: the record is (false, false, 0, ''), every ref is empty, there are no chunks, the element has no source and is not playing, no browser object exists, and `Valid()` holds |
| `HooksRecorder.Recorder.StartRecording` | src/hooks/useAudioRecorder.ts:47-85 | the in-place handler equals `Start` and keeps the URL invariant |
| `HooksRecorder.Recorder.OnDataAvailable` | src/hooks/useAudioRecorder.ts:60-64 | the in-place handler equals `DataAvailable` |
| `HooksRecorder.Recorder.OnRecorderStop` | src/hooks/useAudioRecorder.ts:66-71 | the in-place handler equals `RecorderStopped` and keeps the URL invariant |
| `HooksRecorder.Recorder.StopRecording` | src/hooks/useAudioRecorder.ts:87-96 | the in-place handler equals `Stop` |
| `HooksRecorder.Recorder.OnTick` | src/hooks/useAudioRecorder.ts:76-81 | a tick of a running interval equals `Tick` |
| `HooksRecorder.Recorder.TogglePlayback` | src/hooks/useAudioRecorder.ts:98-107 | the in-place handler, acting on the element, equals `Toggle` |
| `HooksRecorder.Recorder.OnEnded` | src/hooks/useAudioRecorder.ts:120-122 | the in-place handler equals `Ended` |
| `HooksRecorder.Recorder.DeleteRecording` | src/hooks/useAudioRecorder.ts:109-117 | the in-place handler equals `Delete` and keeps the URL invariant |
| `HooksRecorder.Recorder.Unmount` | src/hooks/useAudioRecorder.ts:124-134 | the unmount cleanup equals `Unmount`; afterwards every created URL has been revoked exactly once |
| `HooksRecorder.Recorder.CleanupEffect` | src/hooks/useAudioRecorder.ts:124-134 | the in-place cleanup changes only the outside world, exactly as `Cleanup` does with the current refs |
| `HooksRecorder.Recorder.SetState` | src/hooks/useAudioRecorder.ts:119-135 | a state update followed by the effect cleanup, which runs only when `audioUrl` changed |
| `SrcRecorder.Start` | src/useAudioRecorder.ts:47-87 | refused access changes nothing; a failing recorder constructor leaves the stream held and live; a granted start empties the chunks, sets `isRecording`, leaves `duration` as it was, and starts a recorder and an interval whose counter is 0 |
| `SrcRecorder.DataAvailable` | src/useAudioRecorder.ts:60-64 | a chunk is appended at the end only when its size is positive; a missing `data` throws and nothing changes |
| `SrcRecorder.Tick` | src/useAudioRecorder.ts:77-83 | a tick raises only its own interval's counter, by 1, and copies it into `duration`; when the counter reaches `maxDuration`, `stopRecording` runs |
| `SrcRecorder.DatasKeep` | src/useAudioRecorder.ts:60-64 | any series of `ondataavailable` events appends exactly the chunks of positive size, in arrival order; a missing `data` throws and changes nothing |
| `SrcRecorder.RoundTrip` | src/useAudioRecorder.ts:57-98 | a granted start, any series of `data` values, `stopRecording` and the recorder's `onstop` call `onSave` once with the kept chunks joined in arrival order, whose length is the sum of their lengths; the fresh URL holds those bytes and becomes `audioUrl`; `isRecording` is false; this recording's recorder, stream and interval are stopped, and no other is |
| `SrcRecorder.FinalDataBeforeOnStop` | src/useAudioRecorder.ts:60-71 | as in the other copy: data events that arrive between `stopRecording` and `onstop` are kept, so `onSave` is called once with the kept chunks of `ds` followed by those of `fs`, whose fresh URL becomes `audioUrl`, and `isRecording` is false |
| `SrcRecorder.StepKeepsSane` | src/useAudioRecorder.ts:120-136 | every command and callback keeps each created URL current or revoked exactly once, and one counter per interval |
| `SrcRecorder.RunKeepsSane` | src/useAudioRecorder.ts:120-136 | any sequence of commands and callbacks keeps that invariant |
| `SrcRecorder.LifetimeRevokesEveryUrlOnce` | src/useAudioRecorder.ts:125-135 | from mount through any events to unmount, each created URL is revoked exactly once and nothing else is revoked |
| `SrcRecorder.TicksUntilStop` | src/useAudioRecorder.ts:76-83 | k ticks raise the counter and `duration` by k; the recording and the interval end exactly on the tick that brings the counter to `maxDuration` |
| `SrcRecorder.TicksAfterStart` | src/useAudioRecorder.ts:76-83 | after a granted start, k ticks give `duration == k`, and the stop happens on tick `maxDuration` and not before |
| `SrcRecorder.StopsAtFive` | src/useAudioRecorder.ts:76-83 | with `maxDuration` 5, still recording after 4 ticks; stopped on the 5th with `duration` 5 and the interval cleared |
| `SrcRecorder.Recorder.constructor` | src/useAudioRecorder.ts:34-45 | the first render: the record is (false, false, 0, ''), every ref is empty, there are no chunks and no interval counters, the element has no source and is not playing, no browser object exists, and `Valid()` holds |
| `SrcRecorder.Recorder.StartRecording` | src/useAudioRecorder.ts:47-87 | the in-place handler equals `Start` and keeps the invariant |
| `SrcRecorder.Recorder.OnDataAvailable` | src/useAudioRecorder.ts:60-64 | the in-place handler equals `DataAvailable` and reports the throw exactly when `data` is missing |
| `SrcRecorder.Recorder.OnRecorderStop` | src/useAudioRecorder.ts:66-71 | the in-place handler equals `RecorderStopped` |
| `SrcRecorder.Recorder.StopRecording` | src/useAudioRecorder.ts:89-98 | the in-place handler equals `Stop` |
| `SrcRecorder.Recorder.OnTick` | src/useAudioRecorder.ts:77-83 | a tick of a running interval equals `Tick` |
| `SrcRecorder.Recorder.TogglePlayback` | src/useAudioRecorder.ts:100-108 | negating `isPlaying` after either branch equals `Toggle` |
| `SrcRecorder.Recorder.OnEnded` | src/useAudioRecorder.ts:121-123 | the in-place handler equals `Ended` |
| `SrcRecorder.Recorder.DeleteRecording` | src/useAudioRecorder.ts:110-118 | the in-place handler equals `Delete` |
| `SrcRecorder.Recorder.Unmount` | src/useAudioRecorder.ts:125-135 | the unmount cleanup equals `Unmount`; afterwards every created URL has been revoked exactly once |
| `SrcRecorder.Recorder.CleanupEffect` | src/useAudioRecorder.ts:125-135 | the in-place cleanup changes only the outside world, exactly as `Cleanup` does with the current refs |
| `SrcRecorder.Recorder.SetState` | src/useAudioRecorder.ts:120-136 | a state update followed by the effect cleanup, which runs only when `audioUrl` changed |

## Left out

- The wait for `getUserMedia`: `startRecording` does nothing before it, so
  the model runs the whole handler as one call once the request has settled.
  A `deleteRecording` during the wait is therefore the same as a delete before
  the call.
- When the effect cleanup runs. The model commits every `setState` at once
  and runs the cleanup keyed on `audioUrl` inside the same transition, reading
  `streamRef` and `timerRef` at that moment, before the next event. React
  runs it only after the render that commits the new `audioUrl`, and reads the
  refs then. So an event landing between `onstop`'s `setState` and that
  commit (a settled `getUserMedia` continuation of a new start, say) would in
  the source have its new stream and interval released by the late cleanup,
  which the model cannot produce; and when React batches several updates into
  one render (`onstop` and then `deleteRecording` before a render), a URL that
  is never committed is never revoked. `HooksRecorder.RunKeepsUrls`,
  `SrcRecorder.RunKeepsSane` and both `LifetimeRevokesEveryUrlOnce` lemmas hold
  for the model's order of one commit per update, not for batched renders.
- React's stale closures. The model keeps one mutable state record that every
  handler reads. In the source, the interval and the `stopRecording` it calls
  read the `state` of the render in which `startRecording` ran. When that
  render has `isRecording` false, as for a first start, the auto-stop in
  either copy does not stop anything at run time. A second `startRecording`
  called from a recording render captures `isRecording` true, and then the
  auto-stop of src/useAudioRecorder.ts does stop. `SrcRecorder.TicksUntilStop` and
  `SrcRecorder.StopsAtFive` are about the single-state model. For the hooks copy,
  whose check also reads `duration` from before the tick,
  `HooksRecorder.StopsAfterMax` gives a stop on tick `maxDuration + 1`; that
  bound, too, holds only in the single-state model, not at run time.
- The two forms of `togglePlayback` (`isPlaying: false/true` in the hooks
  copy, `!prev.isPlaying` in the other) differ only when `state` is stale, so
  both are modelled by `Session.Toggle`.
- Events after unmount: the model does not say what happens when a recorder
  or interval fires after the component is gone, nor when `getUserMedia`
  settles after an unmount during its wait. In the source the rest of
  `startRecording` then still runs and leaves a live stream, a recording
  recorder and a running interval that no cleanup releases.
- The browser stopping a recorder by itself when its tracks end, recorder or
  `play()` errors, and `mediaRecorder.start()` throwing. Only the refused
  access and the throwing `MediaRecorder` constructor are modelled as
  failures.
- The MIME type, bitrate and Blob type options, and what the chunk bytes
  encode.
- `onUpdate`, which the source accepts but never calls; `console.error`.
- `maxDuration` is a JavaScript `number` in the source and an `int` here. The
  counts compared with it are whole numbers, so a fractional value acts as its
  ceiling. `Infinity` and `NaN`, with which the source never auto-stops, have
  no counterpart, though any finite run is matched by a large enough `int`.
- The configuration defaults: `maxDuration` (300 when not given) is a
  parameter of every transition and of the `Recorder` constructor, and the
  no-op default `onSave` and `onDelete` are still recorded as entries in
  `Host.saved` and `Host.deletes`.
- The `AudioRecorder` component, the tests and the test mocks. Their
  scenarios appear only as lemmas.
- Interval ids are taken to be truthy, so `if (timerRef.current)` is the same
  as "an interval was created".
- Wall-clock time and the one-second periods: a tick is one event.
