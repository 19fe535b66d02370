/** The `useAudioRecorder` hook of src/hooks/useAudioRecorder.ts, the copy the
    `AudioRecorder` component uses: `startRecording` resets `duration` to 0,
    each interval tick adds 1 to `duration`, and `ondataavailable` ignores a
    missing `data`. */
module HooksRecorder {
  import opened Media
  import Session

  /** `startRecording` once `getUserMedia` has settled. The new stream,
      recorder and interval get the next free ids. A stream acquired before
      the recorder constructor throws stays in `streamRef`, its tracks live. */
  function Start(s: Session.Core, access: Session.Access): (r: Session.Core)
    ensures access == Session.Denied ==> r == s
    ensures access != Session.Denied ==>
              r.view.isPlaying == s.view.isPlaying && r.view.audioUrl == s.view.audioUrl &&
              r.streamRef == Some(|s.host.streams|) && r.host.streams == s.host.streams + [true]
    ensures access == Session.RecorderFails ==>
              r == s.(streamRef := r.streamRef, host := s.host.(streams := r.host.streams))
    ensures access == Session.Granted ==>
              r.view.isRecording && r.view.duration == 0 && r.chunks == [] &&
              r.recorderRef == Some(|s.host.recorders|) && r.host.recorders == s.host.recorders + [true] &&
              r.timerRef == Some(|s.host.timers|) && r.host.timers == s.host.timers + [true] &&
              r.audio == s.audio
    ensures r.host.urls == s.host.urls && r.host.revoked == s.host.revoked
    ensures r.host.saved == s.host.saved && r.host.deletes == s.host.deletes
  {
    match access
    case Denied => s
    case RecorderFails =>
      s.(streamRef := Some(|s.host.streams|), host := s.host.(streams := s.host.streams + [true]))
    case Granted =>
      s.(streamRef := Some(|s.host.streams|),
         recorderRef := Some(|s.host.recorders|),
         chunks := [],
         view := s.view.(isRecording := true, duration := 0),
         timerRef := Some(|s.host.timers|),
         host := s.host.(streams := s.host.streams + [true],
                         recorders := s.host.recorders + [true],
                         timers := s.host.timers + [true]))
  }

  /** `ondataavailable`: keep the Blob when it is present and not empty. */
  function DataAvailable(s: Session.Core, data: Option<Chunk>): (r: Session.Core)
    ensures data.Some? && |data.value| > 0 ==> r == s.(chunks := s.chunks + [data.value])
    ensures data.None? || |data.value| == 0 ==> r == s
  {
    if data.Some? && |data.value| > 0 then s.(chunks := s.chunks + [data.value]) else s
  }

  /** A tick of the interval: `duration` grows by 1. The `duration >= maxDuration`
      test reads the state before the increment, so in this model a recording
      that started with `duration` 0 is stopped on tick maxDuration + 1
      (`StopsAfterMax`). */
  function Tick(s: Session.Core, maxDuration: int): (r: Session.Core)
    ensures r.view.duration == s.view.duration + 1
    ensures s.view.duration < maxDuration ==> r == s.(view := s.view.(duration := s.view.duration + 1))
    ensures s.view.duration >= maxDuration ==>
              r == Session.Stop(s.(view := s.view.(duration := s.view.duration + 1)))
    ensures r.view.isPlaying == s.view.isPlaying && r.view.audioUrl == s.view.audioUrl
    ensures r.chunks == s.chunks && r.host.urls == s.host.urls && r.host.revoked == s.host.revoked
  {
    var ticked := s.(view := s.view.(duration := s.view.duration + 1));
    if s.view.duration >= maxDuration then Session.Stop(ticked) else ticked
  }

  /** `k` ticks in a row. */
  function Ticks(s: Session.Core, maxDuration: int, k: nat): Session.Core
    decreases k
  {
    if k == 0 then s else Ticks(Tick(s, maxDuration), maxDuration, k - 1)
  }

  /** The commands and callbacks that reach the hook. */
  datatype Event =
    | StartRecording(access: Session.Access)
    | OnData(data: Option<Chunk>)
    | OnStop
    | OnTick
    | StopRecording
    | TogglePlayback
    | OnEnded
    | DeleteRecording

  function Step(s: Session.Core, maxDuration: int, e: Event): Session.Core
  {
    match e
    case StartRecording(a) => Start(s, a)
    case OnData(d) => DataAvailable(s, d)
    case OnStop => Session.RecorderStopped(s)
    case OnTick => Tick(s, maxDuration)
    case StopRecording => Session.Stop(s)
    case TogglePlayback => Session.Toggle(s)
    case OnEnded => Session.Ended(s)
    case DeleteRecording => Session.Delete(s)
  }

  function Run(s: Session.Core, maxDuration: int, es: seq<Event>): Session.Core
    decreases |es|
  {
    if es == [] then s else Run(Step(s, maxDuration, es[0]), maxDuration, es[1..])
  }

  lemma StepKeepsUrls(s: Session.Core, maxDuration: int, e: Event)
    requires Session.UrlsAccounted(s)
    ensures Session.UrlsAccounted(Step(s, maxDuration, e))
  {
    match e
    case StartRecording(a) => Session.SameUrls(s, Start(s, a));
    case OnData(d) => Session.SameUrls(s, DataAvailable(s, d));
    case OnStop => Session.RecorderStoppedKeepsUrls(s);
    case OnTick => Session.SameUrls(s, Tick(s, maxDuration));
    case StopRecording => Session.SameUrls(s, Session.Stop(s));
    case TogglePlayback => Session.SameUrls(s, Session.Toggle(s));
    case OnEnded => Session.SameUrls(s, Session.Ended(s));
    case DeleteRecording => Session.DeleteKeepsUrls(s);
  }

  /** Whatever the hook is sent, every object URL it created is the current
      `audioUrl` or has been revoked exactly once. */
  lemma {:induction false} RunKeepsUrls(s: Session.Core, maxDuration: int, es: seq<Event>)
    requires Session.UrlsAccounted(s)
    ensures Session.UrlsAccounted(Run(s, maxDuration, es))
    decreases |es|
  {
    if es != [] {
      StepKeepsUrls(s, maxDuration, es[0]);
      RunKeepsUrls(Step(s, maxDuration, es[0]), maxDuration, es[1..]);
    }
  }

  /** From mount to unmount, each object URL is revoked exactly once. */
  lemma LifetimeRevokesEveryUrlOnce(maxDuration: int, es: seq<Event>)
    ensures var r := Session.Unmount(Run(Session.Mounted, maxDuration, es));
            (forall x :: x in r.host.revoked ==> x < |r.host.urls|) &&
            forall id :: 0 <= id < |r.host.urls| ==> multiset(r.host.revoked)[id] == 1
  {
    Session.MountedAccounted();
    RunKeepsUrls(Session.Mounted, maxDuration, es);
    Session.UnmountRevokesEveryUrl(Run(Session.Mounted, maxDuration, es));
  }

  /** k ticks add k to `duration`, and do not stop a recording while the
      duration before each tick is below `maxDuration`. */
  lemma {:induction false} TicksCount(s: Session.Core, maxDuration: int, k: nat)
    ensures Ticks(s, maxDuration, k).view.duration == s.view.duration + k
    ensures s.view.isRecording && s.view.duration + k <= maxDuration ==>
              Ticks(s, maxDuration, k).view.isRecording
    ensures Ticks(s, maxDuration, k).view.audioUrl == s.view.audioUrl
    ensures Ticks(s, maxDuration, k).chunks == s.chunks
    decreases k
  {
    if k > 0 {
      TicksCount(Tick(s, maxDuration), maxDuration, k - 1);
    }
  }

  /** After a granted start, k ticks leave `duration == k`. */
  lemma TicksAfterStart(s: Session.Core, maxDuration: int, k: nat)
    ensures Ticks(Start(s, Session.Granted), maxDuration, k).view.duration == k
    ensures k <= maxDuration ==> Ticks(Start(s, Session.Granted), maxDuration, k).view.isRecording
  {
    TicksCount(Start(s, Session.Granted), maxDuration, k);
  }

  /** One more tick after k ticks. */
  lemma {:induction false} TicksLast(s: Session.Core, maxDuration: int, k: nat)
    ensures Ticks(s, maxDuration, k + 1) == Tick(Ticks(s, maxDuration, k), maxDuration)
    decreases k
  {
    if k > 0 {
      TicksLast(Tick(s, maxDuration), maxDuration, k - 1);
    }
  }

  /** Ticks never change the refs. */
  lemma {:induction false} TicksKeepRefs(s: Session.Core, maxDuration: int, k: nat)
    ensures Ticks(s, maxDuration, k).recorderRef == s.recorderRef
    decreases k
  {
    if k > 0 {
      TicksKeepRefs(Tick(s, maxDuration), maxDuration, k - 1);
    }
  }

  /** With one mutable state record, the check before the increment lets a
      recording started with `duration` 0 run through tick `maxDuration` and
      stops it on tick `maxDuration + 1`. */
  lemma StopsAfterMax(s: Session.Core, maxDuration: nat)
    ensures var started := Start(s, Session.Granted);
            Ticks(started, maxDuration, maxDuration).view.isRecording &&
            Ticks(started, maxDuration, maxDuration).view.duration == maxDuration &&
            !Ticks(started, maxDuration, maxDuration + 1).view.isRecording &&
            Ticks(started, maxDuration, maxDuration + 1).view.duration == maxDuration + 1
  {
    var started := Start(s, Session.Granted);
    TicksAfterStart(s, maxDuration, maxDuration);
    TicksAfterStart(s, maxDuration, maxDuration + 1);
    TicksLast(started, maxDuration, maxDuration);
    TicksKeepRefs(started, maxDuration, maxDuration);
    var last := Ticks(started, maxDuration, maxDuration);
    assert Session.CanStop(last.(view := last.view.(duration := last.view.duration + 1)));
  }

  /** Starting twice without stopping in between leaves the first stream's
      tracks live and the first interval scheduled, with neither held in a ref,
      so a later `stopRecording` cannot release them. */
  lemma DoubleStartLeaks(s: Session.Core)
    ensures var twice := Start(Start(s, Session.Granted), Session.Granted);
            var first := |s.host.streams|;
            var firstTimer := |s.host.timers|;
            var stopped := Session.Stop(twice);
            first < |stopped.host.streams| && stopped.host.streams[first] &&
            stopped.streamRef != Some(first) &&
            firstTimer < |stopped.host.timers| && stopped.host.timers[firstTimer] &&
            stopped.timerRef != Some(firstTimer)
  {
  }

  /** An `onstop` of the first recording that arrives after a second
      `startRecording` changes `audioUrl`, and the effect cleanup then stops the
      second recording's stream and clears its interval; the hook never stops
      the second recorder, and `isRecording` stays true. The second start
      emptied `chunksRef`, so `onSave` receives no bytes and the first
      recording's chunk `c` is lost. */
  lemma LateOnStop(s: Session.Core, c: Chunk)
    requires Session.UrlsAccounted(s) && |c| > 0
    ensures var first := DataAvailable(Start(s, Session.Granted), Some(c));
            var second := Start(Session.Stop(first), Session.Granted);
            var r := Session.RecorderStopped(second);
            var stream := |s.host.streams| + 1;
            var recorder := |s.host.recorders| + 1;
            var timer := |s.host.timers| + 1;
            r.view.isRecording && r.recorderRef == Some(recorder) && r.host.recorders[recorder] &&
            r.streamRef == Some(stream) && !r.host.streams[stream] &&
            r.timerRef == Some(timer) && !r.host.timers[timer] &&
            first.chunks == [c] && r.host.saved == s.host.saved + [[]]
  {
  }

  lemma RunStep(s: Session.Core, maxDuration: int, e: Event, rest: seq<Event>)
    ensures Run(s, maxDuration, [e] + rest) == Run(Step(s, maxDuration, e), maxDuration, rest)
  {
    assert ([e] + rest)[1..] == rest;
  }

  lemma ConcatThree(c1: Chunk, c2: Chunk, c3: Chunk)
    ensures Concat([c1, c2, c3]) == c1 + c2 + c3
  {
    assert [c1][..0] == [];
    assert Concat([c1]) == c1;
    assert [c1, c2][..1] == [c1];
    assert Concat([c1, c2]) == c1 + c2;
    assert [c1, c2, c3][..2] == [c1, c2];
    assert Concat([c1, c2, c3]) == Concat([c1, c2]) + c3;
  }

  /** Running two event lists one after the other is running their concatenation. */
  lemma {:induction false} RunAppend(s: Session.Core, maxDuration: int, a: seq<Event>, b: seq<Event>)
    ensures Run(s, maxDuration, a + b) == Run(Run(s, maxDuration, a), maxDuration, b)
    decreases |a|
  {
    if a != [] {
      assert (a + b)[0] == a[0] && (a + b)[1..] == a[1..] + b;
      RunAppend(Step(s, maxDuration, a[0]), maxDuration, a[1..], b);
    } else {
      assert a + b == b;
    }
  }

  /** One `ondataavailable` event per `data` value, in order. */
  function Datas(ds: seq<Option<Chunk>>): (es: seq<Event>)
    ensures |es| == |ds|
    decreases |ds|
  {
    if ds == [] then [] else [OnData(ds[0])] + Datas(ds[1..])
  }

  /** `ondataavailable` for each `data` value in turn. */
  function Feed(s: Session.Core, ds: seq<Option<Chunk>>): Session.Core
    decreases |ds|
  {
    if ds == [] then s else Feed(DataAvailable(s, ds[0]), ds[1..])
  }

  /** Feeding a series of `data` values appends exactly the kept chunks, in
      arrival order, and changes nothing else. */
  lemma {:induction false} FeedKeeps(s: Session.Core, ds: seq<Option<Chunk>>)
    ensures Feed(s, ds) == s.(chunks := s.chunks + Kept(ds))
    decreases |ds|
  {
    if ds == [] {
      assert s.chunks + Kept(ds) == s.chunks;
    } else {
      var k0 := if ds[0].Some? && |ds[0].value| > 0 then [ds[0].value] else [];
      assert DataAvailable(s, ds[0]) == s.(chunks := s.chunks + k0);
      FeedKeeps(DataAvailable(s, ds[0]), ds[1..]);
      assert Kept(ds) == k0 + Kept(ds[1..]);
      assert s.chunks + k0 + Kept(ds[1..]) == s.chunks + Kept(ds);
    }
  }

  /** The events of `Datas(ds)` are `Feed`. */
  lemma {:induction false} RunDatas(s: Session.Core, maxDuration: int, ds: seq<Option<Chunk>>)
    ensures Run(s, maxDuration, Datas(ds)) == Feed(s, ds)
    decreases |ds|
  {
    if ds != [] {
      assert Datas(ds) == [OnData(ds[0])] + Datas(ds[1..]);
      RunStep(s, maxDuration, OnData(ds[0]), Datas(ds[1..]));
      RunDatas(DataAvailable(s, ds[0]), maxDuration, ds[1..]);
    }
  }

  /** A series of `ondataavailable` events appends exactly the kept chunks, in
      arrival order, and changes nothing else. */
  lemma DatasKeep(s: Session.Core, maxDuration: int, ds: seq<Option<Chunk>>)
    ensures Run(s, maxDuration, Datas(ds)) == s.(chunks := s.chunks + Kept(ds))
  {
    RunDatas(s, maxDuration, ds);
    FeedKeeps(s, ds);
  }

  /** Start followed by a series of `ondataavailable` events records exactly
      the kept chunks. */
  lemma StartThenDatas(s: Session.Core, maxDuration: int, ds: seq<Option<Chunk>>)
    ensures var started := Start(s, Session.Granted);
            Run(s, maxDuration, [StartRecording(Session.Granted)] + Datas(ds)) ==
            started.(chunks := started.chunks + Kept(ds))
  {
    var begin := [StartRecording(Session.Granted)];
    RunAppend(s, maxDuration, begin, Datas(ds));
    RunStep(s, maxDuration, StartRecording(Session.Granted), []);
    assert begin == [StartRecording(Session.Granted)] + [];
    DatasKeep(Start(s, Session.Granted), maxDuration, ds);
  }

  /** The events `stopRecording` and `onstop`, in that order. */
  lemma StopThenOnStop(s: Session.Core, maxDuration: int)
    ensures Run(s, maxDuration, [StopRecording, OnStop]) == Session.RecorderStopped(Session.Stop(s))
  {
    RunStep(s, maxDuration, StopRecording, [OnStop]);
    RunStep(Session.Stop(s), maxDuration, OnStop, []);
  }

  /** `stopRecording` and the recorder's `onstop` after a granted start that
      recorded the chunks `ks`. */
  lemma StartedThenSaved(s: Session.Core, ks: seq<Chunk>)
    requires Session.UrlKnown(s)
    ensures var started := Start(s, Session.Granted);
            var r := Session.RecorderStopped(Session.Stop(started.(chunks := started.chunks + ks)));
            r.host.saved == s.host.saved + [Concat(ks)] &&
            r.host.urls == s.host.urls + [Concat(ks)] &&
            r.view.audioUrl == ObjectUrl(|s.host.urls|) && !r.view.isRecording &&
            r.host.recorders == s.host.recorders + [false] &&
            r.host.streams == s.host.streams + [false] &&
            r.host.timers == s.host.timers + [false]
  {
    var started := Start(s, Session.Granted);
    var recorded := started.(chunks := started.chunks + ks);
    assert recorded.chunks == ks;
    assert Session.CanStop(recorded);
    var stopped := Session.Stop(recorded);
    assert Session.UrlKnown(stopped);
    assert stopped.host.recorders == s.host.recorders + [false];
    assert stopped.host.streams == s.host.streams + [false];
    assert stopped.host.timers == s.host.timers + [false];
  }

  /** Start, any series of `ondataavailable` events, stop and the recorder's
      `onstop`: `onSave` is called once, with the kept chunks joined in
      arrival order, whose length is the sum of their lengths; the new
      object URL holds those bytes; the recorder, stream and interval of this
      recording are stopped and no other is. */
  lemma RoundTrip(s: Session.Core, maxDuration: int, ds: seq<Option<Chunk>>)
    requires Session.UrlKnown(s)
    ensures var r := Run(s, maxDuration, [StartRecording(Session.Granted)] + Datas(ds) + [StopRecording, OnStop]);
            r.host.saved == s.host.saved + [Concat(Kept(ds))] &&
            |r.host.saved[|s.host.saved|]| == TotalSize(Kept(ds)) &&
            r.host.urls == s.host.urls + [Concat(Kept(ds))] &&
            r.view.audioUrl == ObjectUrl(|s.host.urls|) && !r.view.isRecording &&
            r.host.recorders == s.host.recorders + [false] &&
            r.host.streams == s.host.streams + [false] &&
            r.host.timers == s.host.timers + [false]
  {
    var m := maxDuration;
    var started := Start(s, Session.Granted);
    var recorded := started.(chunks := started.chunks + Kept(ds));
    StartThenDatas(s, m, ds);
    RunAppend(s, m, [StartRecording(Session.Granted)] + Datas(ds), [StopRecording, OnStop]);
    StopThenOnStop(recorded, m);
    StartedThenSaved(s, Kept(ds));
  }

  /** `stopRecording`, the recorder's final `ondataavailable` events, then
      its `onstop`. */
  lemma StopFlushSave(t: Session.Core, maxDuration: int, fs: seq<Option<Chunk>>)
    ensures var flushed := Session.Stop(t).(chunks := Session.Stop(t).chunks + Kept(fs));
            Run(t, maxDuration, [StopRecording] + Datas(fs) + [OnStop]) == Session.RecorderStopped(flushed)
  {
    var m := maxDuration;
    var stopped := Session.Stop(t);
    RunAppend(t, m, [StopRecording] + Datas(fs), [OnStop]);
    RunStep(t, m, StopRecording, Datas(fs));
    DatasKeep(stopped, m, fs);
    var flushed := stopped.(chunks := stopped.chunks + Kept(fs));
    RunStep(flushed, m, OnStop, []);
  }

  /** A real `MediaRecorder.stop()` delivers its last `dataavailable` events
      before `onstop`. Those chunks, too, reach `onSave`: it is called once,
      with the chunks kept before and after `stopRecording` joined in arrival
      order. */
  lemma FinalDataBeforeOnStop(s: Session.Core, maxDuration: int, ds: seq<Option<Chunk>>, fs: seq<Option<Chunk>>)
    requires Session.UrlKnown(s)
    ensures var r := Run(s, maxDuration, [StartRecording(Session.Granted)] + Datas(ds) +
                                         ([StopRecording] + Datas(fs) + [OnStop]));
            r.host.saved == s.host.saved + [Concat(Kept(ds + fs))] &&
            r.host.urls == s.host.urls + [Concat(Kept(ds + fs))] &&
            r.view.audioUrl == ObjectUrl(|s.host.urls|) && !r.view.isRecording
  {
    var m := maxDuration;
    var started := Start(s, Session.Granted);
    var recorded := started.(chunks := started.chunks + Kept(ds));
    var stopped := Session.Stop(recorded);
    var flushed := stopped.(chunks := stopped.chunks + Kept(fs));
    assert Run(s, m, [StartRecording(Session.Granted)] + Datas(ds) +
                     ([StopRecording] + Datas(fs) + [OnStop])) == Session.RecorderStopped(flushed) by {
      StartThenDatas(s, m, ds);
      RunAppend(s, m, [StartRecording(Session.Granted)] + Datas(ds), [StopRecording] + Datas(fs) + [OnStop]);
      StopFlushSave(recorded, m, fs);
    }
    assert flushed.chunks == Kept(ds + fs) by {
      KeptAppend(ds, fs);
    }
    assert Session.CanStop(recorded);
  }


  /** Record three chunks of 10, 20 and 15 bytes, stop, and let the recorder's
      `onstop` fire: `onSave` is called once, with the 45 bytes in order. */
  lemma RecordThreeChunks(maxDuration: int, c1: Chunk, c2: Chunk, c3: Chunk)
    requires |c1| == 10 && |c2| == 20 && |c3| == 15
    ensures var r := Run(Session.Mounted, maxDuration,
                         [StartRecording(Session.Granted), OnData(Some(c1)), OnData(Some(c2)), OnData(Some(c3)),
                          StopRecording, OnStop]);
            r.host.saved == [c1 + c2 + c3] && |r.host.saved[0]| == 45 &&
            !r.view.isRecording && r.view.audioUrl == ObjectUrl(0) &&
            r.host.streams == [false] && r.host.recorders == [false] && r.host.timers == [false]
  {
    var ds := [Some(c1), Some(c2), Some(c3)];
    assert ds[1..] == [Some(c2), Some(c3)] && ds[1..][1..] == [Some(c3)] && ds[1..][1..][1..] == [];
    assert Datas(ds[1..][1..]) == [OnData(Some(c3))] && Kept(ds[1..][1..]) == [c3];
    assert Datas(ds[1..]) == [OnData(Some(c2)), OnData(Some(c3))] && Kept(ds[1..]) == [c2, c3];
    assert Datas(ds) == [OnData(Some(c1)), OnData(Some(c2)), OnData(Some(c3))];
    assert Kept(ds) == [c1, c2, c3];
    assert [StartRecording(Session.Granted)] + Datas(ds) + [StopRecording, OnStop] ==
           [StartRecording(Session.Granted), OnData(Some(c1)), OnData(Some(c2)), OnData(Some(c3)),
            StopRecording, OnStop];
    RoundTrip(Session.Mounted, maxDuration, ds);
    ConcatThree(c1, c2, c3);
  }

  /** Play the recorded clip, then let it end; then delete it: `onDelete` is
      called once, the state is the initial one and the clip's URL is revoked. */
  lemma PlayThenDelete(maxDuration: int, c: Chunk)
    ensures var recorded := Run(Session.Mounted, maxDuration,
                                [StartRecording(Session.Granted), OnData(Some(c)), StopRecording, OnStop]);
            var playing := Session.Toggle(recorded);
            var ended := Session.Ended(playing);
            var deleted := Session.Delete(ended);
            playing.view.isPlaying && playing.audio == Audio(ObjectUrl(0), true) &&
            !ended.view.isPlaying && ended.view.audioUrl == ObjectUrl(0) &&
            deleted.view == Initial && deleted.host.deletes == 1 && deleted.host.revoked == [0]
  {
    OneChunkRecorded(maxDuration, c);
    PlayEndDelete(Run(Session.Mounted, maxDuration,
                      [StartRecording(Session.Granted), OnData(Some(c)), StopRecording, OnStop]));
  }

  /** After one recording from the mounted state, the clip's URL is the first
      one and nothing was revoked, played or deleted yet. */
  lemma OneChunkRecorded(maxDuration: int, c: Chunk)
    ensures var r := Run(Session.Mounted, maxDuration,
                         [StartRecording(Session.Granted), OnData(Some(c)), StopRecording, OnStop]);
            r.view.audioUrl == ObjectUrl(0) && !r.view.isPlaying && r.host.revoked == [] && r.host.deletes == 0
  {
    var m := maxDuration;
    var s0 := Session.Mounted;
    var s1 := Start(s0, Session.Granted);
    var s2 := DataAvailable(s1, Some(c));
    var s3 := Session.Stop(s2);
    var s4 := Session.RecorderStopped(s3);
    assert Run(s0, m, [StartRecording(Session.Granted), OnData(Some(c)), StopRecording, OnStop]) == s4 by {
      RunStep(s0, m, StartRecording(Session.Granted), [OnData(Some(c)), StopRecording, OnStop]);
      RunStep(s1, m, OnData(Some(c)), [StopRecording, OnStop]);
      RunStep(s2, m, StopRecording, [OnStop]);
      RunStep(s3, m, OnStop, []);
    }
    assert s2.view == s1.view && s2.host == s1.host;
    assert s3.view.audioUrl == NoUrl && !s3.view.isPlaying;
    assert s3.host.revoked == [] && s3.host.urls == [] && s3.host.deletes == 0;
  }


  /** Play a saved clip, let it end, delete it: the element plays the clip's
      URL, and deleting restores the initial record and revokes that URL. */
  lemma PlayEndDelete(t: Session.Core)
    requires t.view.audioUrl == ObjectUrl(0) && !t.view.isPlaying
    requires t.host.revoked == [] && t.host.deletes == 0
    ensures var playing := Session.Toggle(t);
            var ended := Session.Ended(playing);
            var deleted := Session.Delete(ended);
            playing.view.isPlaying && playing.audio == Audio(ObjectUrl(0), true) &&
            !ended.view.isPlaying && ended.view.audioUrl == ObjectUrl(0) &&
            deleted.view == Initial && deleted.host.deletes == 1 && deleted.host.revoked == [0]
  {
  }

  /** The hook as an object: the state record's fields, the refs and the
      `Audio` element, changed in place by the handlers. */
  class Recorder {
    const maxDuration: int
    const audio: AudioElement
    var isRecording: bool
    var isPlaying: bool
    var duration: int
    var audioUrl: Url
    var recorderRef: Option<nat>
    var streamRef: Option<nat>
    var timerRef: Option<nat>
    var chunks: seq<Chunk>
    var host: Host

    function Model(): Session.Core
      reads this, audio
    {
      Session.Core(View(isRecording, isPlaying, duration, audioUrl), recorderRef, streamRef, timerRef,
                   chunks, Audio(audio.src, audio.playing), host)
    }

    predicate Valid()
      reads this, audio
    {
      Session.UrlsAccounted(Model())
    }

    constructor (maxDuration: int)
      ensures Valid() && Model() == Session.Mounted && this.maxDuration == maxDuration
    {
      this.maxDuration := maxDuration;
      audio := new AudioElement();
      isRecording, isPlaying, duration, audioUrl := false, false, 0, NoUrl;
      recorderRef, streamRef, timerRef := None, None, None;
      chunks := [];
      host := NoHost;
    }

    /** The cleanup of the effect keyed on `audioUrl`, with the URL it captured. */
    method CleanupEffect(captured: Url)
      modifies this
      ensures Model() == old(Model()).(host := Cleanup(old(host), streamRef, timerRef, captured))
    {
      if streamRef.Some? {
        host := host.(streams := Release(host.streams, streamRef));
      }
      if timerRef.Some? {
        host := host.(timers := Release(host.timers, timerRef));
      }
      if captured.ObjectUrl? {
        host := host.(revoked := host.revoked + [captured.id]);
      }
    }

    /** `setState` with a new record, then the effect re-run when `audioUrl` changed. */
    method SetState(v: View)
      modifies this
      ensures Model() == Session.Commit(old(Model()), v)
    {
      var captured := audioUrl;
      isRecording, isPlaying, duration, audioUrl := v.isRecording, v.isPlaying, v.duration, v.audioUrl;
      if v.audioUrl != captured {
        CleanupEffect(captured);
      }
    }

    method StartRecording(access: Session.Access)
      requires Valid()
      modifies this
      ensures Valid() && Model() == Start(old(Model()), access)
    {
      ghost var before := Model();
      StepKeepsUrls(before, maxDuration, Event.StartRecording(access));
      if access == Session.Denied {
        return;
      }
      // getUserMedia resolved
      streamRef := Some(|host.streams|);
      host := host.(streams := host.streams + [true]);
      if access == Session.RecorderFails {
        assert Model() == Start(before, access);
        return;
      }
      var recorder := |host.recorders|;
      host := host.(recorders := host.recorders + [false]);
      recorderRef := Some(recorder);
      chunks := [];
      isRecording, duration := true, 0;
      // mediaRecorder.start(1000)
      host := host.(recorders := host.recorders[recorder := true]);
      timerRef := Some(|host.timers|);
      host := host.(timers := host.timers + [true]);
      assert Model() == Start(before, access);
    }

    /** `ondataavailable` of recorder `rec`. The handler appends to `chunksRef`
        whichever recorder fires, so `rec` only names an existing recorder. */
    method OnDataAvailable(rec: nat, data: Option<Chunk>)
      requires Valid() && rec < |host.recorders|
      modifies this
      ensures Valid() && Model() == DataAvailable(old(Model()), data)
    {
      if data.Some? && |data.value| > 0 {
        chunks := chunks + [data.value];
      }
    }

    /** `onstop` of recorder `rec`. The handler reads `chunksRef` and the
        current refs whichever recorder fires, so `rec` only names an existing
        recorder. */
    method OnRecorderStop(rec: nat)
      requires Valid() && rec < |host.recorders|
      modifies this
      ensures Valid() && Model() == Session.RecorderStopped(old(Model()))
    {
      ghost var before := Model();
      var blob := Concat(chunks);
      var url := ObjectUrl(|host.urls|);
      host := host.(urls := host.urls + [blob]);
      SetState(View(isRecording, isPlaying, duration, url));
      host := host.(saved := host.saved + [blob]);
      Session.RecorderStoppedKeepsUrls(before);
    }

    method StopRecording()
      requires Valid()
      modifies this
      ensures Valid() && Model() == Session.Stop(old(Model()))
    {
      if recorderRef.Some? && isRecording {
        host := host.(recorders := Release(host.recorders, recorderRef));
        host := host.(streams := Release(host.streams, streamRef));
        if timerRef.Some? {
          host := host.(timers := Release(host.timers, timerRef));
        }
        isRecording := false;
      }
    }

    /** A tick of interval `t`, which must still be scheduled. The callback
        updates `duration` and calls `stopRecording`, which acts on the current
        refs, whichever interval fires, so `t` only names a live interval. */
    method OnTick(t: nat)
      requires Valid() && t < |host.timers| && host.timers[t]
      modifies this
      ensures Valid() && Model() == Tick(old(Model()), maxDuration)
    {
      var seen := duration;
      duration := duration + 1;
      if seen >= maxDuration {
        StopRecording();
      }
    }

    method TogglePlayback()
      requires Valid()
      modifies this, audio
      ensures Valid() && Model() == Session.Toggle(old(Model()))
    {
      if isPlaying {
        audio.Pause();
        isPlaying := false;
      } else {
        audio.src := audioUrl;
        audio.Play();
        isPlaying := true;
      }
    }

    /** The element's `onended`, after it reached the end of its source. */
    method OnEnded()
      requires Valid()
      modifies this, audio
      ensures Valid() && Model() == Session.Ended(old(Model()))
    {
      audio.Finish();
      isPlaying := false;
    }

    method DeleteRecording()
      requires Valid()
      modifies this
      ensures Valid() && Model() == Session.Delete(old(Model()))
    {
      ghost var before := Model();
      SetState(Initial);
      host := host.(deletes := host.deletes + 1);
      Session.DeleteKeepsUrls(before);
    }

    /** Unmounting the component: the effect cleanup with the current `audioUrl`.
        Afterwards every URL the hook created has been revoked exactly once. */
    method Unmount()
      requires Valid()
      modifies this
      ensures Model() == Session.Unmount(old(Model()))
      ensures forall id :: 0 <= id < |host.urls| ==> multiset(host.revoked)[id] == 1
    {
      ghost var before := Model();
      CleanupEffect(audioUrl);
      Session.UnmountRevokesEveryUrl(before);
    }
  }
}
