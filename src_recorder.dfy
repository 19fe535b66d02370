/** The `useAudioRecorder` hook of src/useAudioRecorder.ts. It differs from the
    copy under src/hooks/ in three handlers: `startRecording` leaves `duration`
    as it was, each interval counts its own ticks in a local `seconds` and
    copies that count into `duration`, stopping the recording once the count
    reaches `maxDuration`; and `ondataavailable` reads `data.size` without
    checking that `data` is present. Its `togglePlayback` negates `isPlaying`
    after either branch, which with one mutable state record has the same
    effect as the other copy's two assignments. It also starts the recorder
    before its `setState`, which only matters if `start()` throws. */
module SrcRecorder {
  import opened Media
  import Session

  /** The hook's state together with the `seconds` counter of every interval
      it created (seconds[i] belongs to interval i). */
  datatype State = State(core: Session.Core, seconds: seq<nat>)

  const Mounted: State := State(Session.Mounted, [])

  /** Every URL accounted for, and one counter per interval. */
  predicate Sane(s: State)
  {
    Session.UrlsAccounted(s.core) && |s.seconds| == |s.core.host.timers|
  }

  /** `startRecording` once `getUserMedia` has settled. The recorder is started,
      `isRecording` set, and a new interval created with its counter at 0;
      `duration` keeps its value until the first tick. */
  function Start(s: State, access: Session.Access): (r: State)
    ensures access == Session.Denied ==> r == s
    ensures access != Session.Denied ==>
              r.core.view.isPlaying == s.core.view.isPlaying &&
              r.core.view.audioUrl == s.core.view.audioUrl &&
              r.core.view.duration == s.core.view.duration &&
              r.core.streamRef == Some(|s.core.host.streams|) &&
              r.core.host.streams == s.core.host.streams + [true]
    ensures access == Session.RecorderFails ==>
              r == s.(core := s.core.(streamRef := r.core.streamRef,
                                      host := s.core.host.(streams := r.core.host.streams)))
    ensures access == Session.Granted ==>
              r.core.view.isRecording && r.core.chunks == [] &&
              r.core.recorderRef == Some(|s.core.host.recorders|) &&
              r.core.host.recorders == s.core.host.recorders + [true] &&
              r.core.timerRef == Some(|s.core.host.timers|) &&
              r.core.host.timers == s.core.host.timers + [true] &&
              r.seconds == s.seconds + [0] && r.core.audio == s.core.audio
    ensures r.core.host.urls == s.core.host.urls && r.core.host.revoked == s.core.host.revoked
    ensures r.core.host.saved == s.core.host.saved && r.core.host.deletes == s.core.host.deletes
  {
    var c := s.core;
    match access
    case Denied => s
    case RecorderFails =>
      s.(core := c.(streamRef := Some(|c.host.streams|), host := c.host.(streams := c.host.streams + [true])))
    case Granted =>
      State(c.(streamRef := Some(|c.host.streams|),
               recorderRef := Some(|c.host.recorders|),
               chunks := [],
               view := c.view.(isRecording := true),
               timerRef := Some(|c.host.timers|),
               host := c.host.(streams := c.host.streams + [true],
                               recorders := c.host.recorders + [true],
                               timers := c.host.timers + [true])),
            s.seconds + [0])
  }

  /** Reading `data.size` when `data` is missing throws a TypeError out of the handler. */
  predicate DataThrows(data: Option<Chunk>)
  {
    data.None?
  }

  /** `ondataavailable`: keep the Blob when its size is positive. A missing
      `data` throws before anything changes. */
  function DataAvailable(s: State, data: Option<Chunk>): (r: State)
    ensures data.Some? && |data.value| > 0 ==> r == s.(core := s.core.(chunks := s.core.chunks + [data.value]))
    ensures DataThrows(data) || |data.value| == 0 ==> r == s
  {
    if data.Some? && |data.value| > 0 then s.(core := s.core.(chunks := s.core.chunks + [data.value])) else s
  }

  /** A tick of interval `t`: its counter goes up by 1 and becomes `duration`;
      once the counter reaches `maxDuration`, `stopRecording` runs. */
  function Tick(s: State, t: nat, maxDuration: int): (r: State)
    requires t < |s.seconds|
    ensures |r.seconds| == |s.seconds| && r.seconds[t] == s.seconds[t] + 1
    ensures |r.core.host.timers| == |s.core.host.timers|
    ensures forall i :: 0 <= i < |s.seconds| && i != t ==> r.seconds[i] == s.seconds[i]
    ensures r.core.view.duration == r.seconds[t]
    ensures r.seconds[t] < maxDuration ==>
              r.core == s.core.(view := s.core.view.(duration := r.seconds[t]))
    ensures r.seconds[t] >= maxDuration ==>
              r.core == Session.Stop(s.core.(view := s.core.view.(duration := r.seconds[t])))
  {
    var n := s.seconds[t] + 1;
    var ticked := State(s.core.(view := s.core.view.(duration := n)), s.seconds[t := n]);
    if n >= maxDuration then ticked.(core := Session.Stop(ticked.core)) else ticked
  }

  /** `k` ticks of interval `t`. */
  function Ticks(s: State, t: nat, maxDuration: int, k: nat): (r: State)
    requires t < |s.seconds|
    ensures |r.seconds| == |s.seconds| && |r.core.host.timers| == |s.core.host.timers|
    decreases k
  {
    if k == 0 then s else Ticks(Tick(s, t, maxDuration), t, maxDuration, k - 1)
  }

  /** The commands and callbacks that reach the hook. A tick names its interval. */
  datatype Event =
    | StartRecording(access: Session.Access)
    | OnData(data: Option<Chunk>)
    | OnStop
    | OnTick(timer: nat)
    | StopRecording
    | TogglePlayback
    | OnEnded
    | DeleteRecording

  /** One event. A tick of an interval that was never created cannot happen;
      it is ignored here so that every sequence of events can be run. */
  function Step(s: State, maxDuration: int, e: Event): State
  {
    match e
    case StartRecording(a) => Start(s, a)
    case OnData(d) => DataAvailable(s, d)
    case OnStop => s.(core := Session.RecorderStopped(s.core))
    case OnTick(t) => if t < |s.seconds| then Tick(s, t, maxDuration) else s
    case StopRecording => s.(core := Session.Stop(s.core))
    case TogglePlayback => s.(core := Session.Toggle(s.core))
    case OnEnded => s.(core := Session.Ended(s.core))
    case DeleteRecording => s.(core := Session.Delete(s.core))
  }

  function Run(s: State, maxDuration: int, es: seq<Event>): State
    decreases |es|
  {
    if es == [] then s else Run(Step(s, maxDuration, es[0]), maxDuration, es[1..])
  }

  lemma StepKeepsSane(s: State, maxDuration: int, e: Event)
    requires Sane(s)
    ensures Sane(Step(s, maxDuration, e))
  {
    match e
    case StartRecording(a) => Session.SameUrls(s.core, Start(s, a).core);
    case OnData(d) => Session.SameUrls(s.core, DataAvailable(s, d).core);
    case OnStop => Session.RecorderStoppedKeepsUrls(s.core);
    case OnTick(t) =>
      if t < |s.seconds| {
        Session.SameUrls(s.core, Tick(s, t, maxDuration).core);
      }
    case StopRecording => Session.SameUrls(s.core, Session.Stop(s.core));
    case TogglePlayback => Session.SameUrls(s.core, Session.Toggle(s.core));
    case OnEnded => Session.SameUrls(s.core, Session.Ended(s.core));
    case DeleteRecording => Session.DeleteKeepsUrls(s.core);
  }

  lemma {:induction false} RunKeepsSane(s: State, maxDuration: int, es: seq<Event>)
    requires Sane(s)
    ensures Sane(Run(s, maxDuration, es))
    decreases |es|
  {
    if es != [] {
      StepKeepsSane(s, maxDuration, es[0]);
      RunKeepsSane(Step(s, maxDuration, es[0]), maxDuration, es[1..]);
    }
  }

  /** From mount to unmount, each object URL is revoked exactly once. */
  lemma LifetimeRevokesEveryUrlOnce(maxDuration: int, es: seq<Event>)
    ensures var r := Session.Unmount(Run(Mounted, maxDuration, es).core);
            (forall x :: x in r.host.revoked ==> x < |r.host.urls|) &&
            forall id :: 0 <= id < |r.host.urls| ==> multiset(r.host.revoked)[id] == 1
  {
    Session.MountedAccounted();
    RunKeepsSane(Mounted, maxDuration, es);
    Session.UnmountRevokesEveryUrl(Run(Mounted, maxDuration, es).core);
  }

  /** Interval `t` drives a live recording: it is the interval and the
      recorder the refs hold, and it is still scheduled. */
  predicate Recording(s: State, t: nat)
  {
    t < |s.seconds| && t < |s.core.host.timers| &&
    s.core.view.isRecording && s.core.recorderRef.Some? &&
    s.core.timerRef == Some(t) && s.core.host.timers[t]
  }

  /** While the counter stays at or below `maxDuration`, k ticks raise it by k and
      copy it into `duration`; the recording ends exactly on the tick that
      brings the counter to `maxDuration`, and that tick clears the interval. */
  lemma {:induction false} TicksUntilStop(s: State, t: nat, maxDuration: int, k: nat)
    requires Recording(s, t)
    requires 0 < k && s.seconds[t] + k <= maxDuration
    ensures var r := Ticks(s, t, maxDuration, k);
            r.seconds[t] == s.seconds[t] + k && r.core.view.duration == s.seconds[t] + k &&
            r.core.view.isRecording == (s.seconds[t] + k < maxDuration) &&
            r.core.host.timers[t] == (s.seconds[t] + k < maxDuration) &&
            r.core.view.audioUrl == s.core.view.audioUrl && r.core.chunks == s.core.chunks
    decreases k
  {
    var next := Tick(s, t, maxDuration);
    if k > 1 {
      assert Recording(next, t);
      TicksUntilStop(next, t, maxDuration, k - 1);
    } else {
      assert Ticks(s, t, maxDuration, k) == next;
      if next.seconds[t] >= maxDuration {
        assert Session.CanStop(s.core.(view := s.core.view.(duration := next.seconds[t])));
      }
    }
  }

  /** After a granted start, k ticks of the new interval give `duration == k`;
      the recording is stopped exactly on tick `maxDuration`. */
  lemma TicksAfterStart(s: State, maxDuration: int, k: nat)
    requires Sane(s) && 0 < k <= maxDuration
    ensures var t := |s.seconds|;
            var r := Ticks(Start(s, Session.Granted), t, maxDuration, k);
            r.core.view.duration == k &&
            r.core.view.isRecording == (k < maxDuration) &&
            r.core.host.timers[t] == (k < maxDuration)
  {
    var started := Start(s, Session.Granted);
    var t := |s.seconds|;
    assert Recording(started, t);
    TicksUntilStop(started, t, maxDuration, k);
  }

  /** With `maxDuration` 5: still recording after 4 ticks, stopped on the 5th
      with `duration == 5`, and the interval is cleared, so no 6th tick comes. */
  lemma StopsAtFive(s: State)
    requires Sane(s)
    ensures var t := |s.seconds|;
            var started := Start(s, Session.Granted);
            Ticks(started, t, 5, 4).core.view.isRecording &&
            Ticks(started, t, 5, 4).core.view.duration == 4 &&
            !Ticks(started, t, 5, 5).core.view.isRecording &&
            Ticks(started, t, 5, 5).core.view.duration == 5 &&
            !Ticks(started, t, 5, 5).core.host.timers[t]
  {
    TicksAfterStart(s, 5, 4);
    TicksAfterStart(s, 5, 5);
  }

  /* The event-list lemmas from here to the class (`RunStep`, `RunAppend`,
     `Datas`, `Feed`, `DatasKeep`, the round trips) mirror those of
     `HooksRecorder` step for step. They are restated over `State` because
     this copy's `Step` and `Run` are its own. */

  lemma RunStep(s: State, maxDuration: int, e: Event, rest: seq<Event>)
    ensures Run(s, maxDuration, [e] + rest) == Run(Step(s, maxDuration, e), maxDuration, rest)
  {
    assert ([e] + rest)[1..] == rest;
  }

  /** Running two event lists one after the other is running their concatenation. */
  lemma {:induction false} RunAppend(s: State, maxDuration: int, a: seq<Event>, b: seq<Event>)
    ensures Run(s, maxDuration, a + b) == Run(Run(s, maxDuration, a), maxDuration, b)
    decreases |a|
  {
    if a != [] {
      assert (a + b)[0] == a[0] && (a + b)[1..] == a[1..] + b;
      RunAppend(Step(s, maxDuration, a[0]), maxDuration, a[1..], b);
    } else {
      assert a + b == b;
    }
  }

  /** One `ondataavailable` event per `data` value, in order. */
  function Datas(ds: seq<Option<Chunk>>): (es: seq<Event>)
    ensures |es| == |ds|
    decreases |ds|
  {
    if ds == [] then [] else [OnData(ds[0])] + Datas(ds[1..])
  }

  /** `ondataavailable` for each `data` value in turn. */
  function Feed(s: State, ds: seq<Option<Chunk>>): State
    decreases |ds|
  {
    if ds == [] then s else Feed(DataAvailable(s, ds[0]), ds[1..])
  }

  /** Feeding a series of `data` values appends exactly the kept chunks, in
      arrival order, and changes nothing else. */
  lemma {:induction false} FeedKeeps(s: State, ds: seq<Option<Chunk>>)
    ensures Feed(s, ds) == s.(core := s.core.(chunks := s.core.chunks + Kept(ds)))
    decreases |ds|
  {
    if ds == [] {
      assert s.core.chunks + Kept(ds) == s.core.chunks;
    } else {
      var k0 := if ds[0].Some? && |ds[0].value| > 0 then [ds[0].value] else [];
      assert DataAvailable(s, ds[0]) == s.(core := s.core.(chunks := s.core.chunks + k0));
      FeedKeeps(DataAvailable(s, ds[0]), ds[1..]);
      assert Kept(ds) == k0 + Kept(ds[1..]);
      assert s.core.chunks + k0 + Kept(ds[1..]) == s.core.chunks + Kept(ds);
    }
  }

  /** The events of `Datas(ds)` are `Feed`. */
  lemma {:induction false} RunDatas(s: State, maxDuration: int, ds: seq<Option<Chunk>>)
    ensures Run(s, maxDuration, Datas(ds)) == Feed(s, ds)
    decreases |ds|
  {
    if ds != [] {
      assert Datas(ds) == [OnData(ds[0])] + Datas(ds[1..]);
      RunStep(s, maxDuration, OnData(ds[0]), Datas(ds[1..]));
      RunDatas(DataAvailable(s, ds[0]), maxDuration, ds[1..]);
    }
  }

  /** A series of `ondataavailable` events appends exactly the kept chunks, in
      arrival order, and changes nothing else. */
  lemma DatasKeep(s: State, maxDuration: int, ds: seq<Option<Chunk>>)
    ensures Run(s, maxDuration, Datas(ds)) == s.(core := s.core.(chunks := s.core.chunks + Kept(ds)))
  {
    RunDatas(s, maxDuration, ds);
    FeedKeeps(s, ds);
  }

  /** Start followed by a series of `ondataavailable` events records exactly
      the kept chunks. */
  lemma StartThenDatas(s: State, maxDuration: int, ds: seq<Option<Chunk>>)
    ensures var started := Start(s, Session.Granted);
            Run(s, maxDuration, [StartRecording(Session.Granted)] + Datas(ds)) ==
            started.(core := started.core.(chunks := started.core.chunks + Kept(ds)))
  {
    var begin := [StartRecording(Session.Granted)];
    RunAppend(s, maxDuration, begin, Datas(ds));
    RunStep(s, maxDuration, StartRecording(Session.Granted), []);
    assert begin == [StartRecording(Session.Granted)] + [];
    DatasKeep(Start(s, Session.Granted), maxDuration, ds);
  }

  /** The events `stopRecording` and `onstop`, in that order. */
  lemma StopThenOnStop(s: State, maxDuration: int)
    ensures Run(s, maxDuration, [StopRecording, OnStop]).core == Session.RecorderStopped(Session.Stop(s.core))
  {
    RunStep(s, maxDuration, StopRecording, [OnStop]);
    RunStep(s.(core := Session.Stop(s.core)), maxDuration, OnStop, []);
  }

  /** `stopRecording` and the recorder's `onstop` after a granted start that
      recorded the chunks `ks`. */
  lemma StartedThenSaved(s: State, ks: seq<Chunk>)
    requires Session.UrlKnown(s.core)
    ensures var started := Start(s, Session.Granted);
            var r := Session.RecorderStopped(Session.Stop(started.core.(chunks := started.core.chunks + ks)));
            r.host.saved == s.core.host.saved + [Concat(ks)] &&
            r.host.urls == s.core.host.urls + [Concat(ks)] &&
            r.view.audioUrl == ObjectUrl(|s.core.host.urls|) && !r.view.isRecording &&
            r.host.recorders == s.core.host.recorders + [false] &&
            r.host.streams == s.core.host.streams + [false] &&
            r.host.timers == s.core.host.timers + [false]
  {
    var started := Start(s, Session.Granted);
    var recorded := started.core.(chunks := started.core.chunks + ks);
    assert recorded.chunks == ks;
    assert Session.CanStop(recorded);
    var stopped := Session.Stop(recorded);
    assert Session.UrlKnown(stopped);
    assert stopped.host.recorders == s.core.host.recorders + [false];
    assert stopped.host.streams == s.core.host.streams + [false];
    assert stopped.host.timers == s.core.host.timers + [false];
  }

  /** Start, any series of `ondataavailable` events, stop and the recorder's
      `onstop`: `onSave` is called once, with the kept chunks joined in
      arrival order, whose length is the sum of their lengths; the new
      object URL holds those bytes; the recorder, stream and interval of this
      recording are stopped and no other is. */
  lemma RoundTrip(s: State, maxDuration: int, ds: seq<Option<Chunk>>)
    requires Session.UrlKnown(s.core)
    ensures var r := Run(s, maxDuration, [StartRecording(Session.Granted)] + Datas(ds) + [StopRecording, OnStop]).core;
            r.host.saved == s.core.host.saved + [Concat(Kept(ds))] &&
            |r.host.saved[|s.core.host.saved|]| == TotalSize(Kept(ds)) &&
            r.host.urls == s.core.host.urls + [Concat(Kept(ds))] &&
            r.view.audioUrl == ObjectUrl(|s.core.host.urls|) && !r.view.isRecording &&
            r.host.recorders == s.core.host.recorders + [false] &&
            r.host.streams == s.core.host.streams + [false] &&
            r.host.timers == s.core.host.timers + [false]
  {
    var m := maxDuration;
    var started := Start(s, Session.Granted);
    var recorded := started.(core := started.core.(chunks := started.core.chunks + Kept(ds)));
    StartThenDatas(s, m, ds);
    RunAppend(s, m, [StartRecording(Session.Granted)] + Datas(ds), [StopRecording, OnStop]);
    StopThenOnStop(recorded, m);
    StartedThenSaved(s, Kept(ds));
  }

  /** `stopRecording`, the recorder's final `ondataavailable` events, then
      its `onstop`. */
  lemma StopFlushSave(t: State, maxDuration: int, fs: seq<Option<Chunk>>)
    ensures var flushed := t.(core := Session.Stop(t.core)).(core := t.(core := Session.Stop(t.core)).core.(chunks := t.(core := Session.Stop(t.core)).core.chunks + Kept(fs)));
            Run(t, maxDuration, [StopRecording] + Datas(fs) + [OnStop]).core == Session.RecorderStopped(flushed.core)
  {
    var m := maxDuration;
    var stopped := t.(core := Session.Stop(t.core));
    RunAppend(t, m, [StopRecording] + Datas(fs), [OnStop]);
    RunStep(t, m, StopRecording, Datas(fs));
    DatasKeep(stopped, m, fs);
    var flushed := stopped.(core := stopped.core.(chunks := stopped.core.chunks + Kept(fs)));
    RunStep(flushed, m, OnStop, []);
  }

  /** A real `MediaRecorder.stop()` delivers its last `dataavailable` events
      before `onstop`. Those chunks, too, reach `onSave`: it is called once,
      with the chunks kept before and after `stopRecording` joined in arrival
      order. */
  lemma FinalDataBeforeOnStop(s: State, maxDuration: int, ds: seq<Option<Chunk>>, fs: seq<Option<Chunk>>)
    requires Session.UrlKnown(s.core)
    ensures var r := Run(s, maxDuration, [StartRecording(Session.Granted)] + Datas(ds) +
                                         ([StopRecording] + Datas(fs) + [OnStop])).core;
            r.host.saved == s.core.host.saved + [Concat(Kept(ds + fs))] &&
            r.host.urls == s.core.host.urls + [Concat(Kept(ds + fs))] &&
            r.view.audioUrl == ObjectUrl(|s.core.host.urls|) && !r.view.isRecording
  {
    var m := maxDuration;
    var started := Start(s, Session.Granted);
    var recorded := started.(core := started.core.(chunks := started.core.chunks + Kept(ds)));
    var stopped := Session.Stop(recorded.core);
    var flushed := stopped.(chunks := stopped.chunks + Kept(fs));
    assert Run(s, m, [StartRecording(Session.Granted)] + Datas(ds) +
                     ([StopRecording] + Datas(fs) + [OnStop])).core == Session.RecorderStopped(flushed) by {
      StartThenDatas(s, m, ds);
      RunAppend(s, m, [StartRecording(Session.Granted)] + Datas(ds), [StopRecording] + Datas(fs) + [OnStop]);
      StopFlushSave(recorded, m, fs);
    }
    assert flushed.chunks == Kept(ds + fs) by {
      KeptAppend(ds, fs);
    }
    assert Session.CanStop(recorded.core);
  }


  /** The hook as an object: the state record's fields, the refs, the
      `Audio` element and each interval's `seconds`, changed in place. */
  class Recorder {
    const maxDuration: int
    const audio: AudioElement
    var isRecording: bool
    var isPlaying: bool
    var duration: int
    var audioUrl: Url
    var recorderRef: Option<nat>
    var streamRef: Option<nat>
    var timerRef: Option<nat>
    var chunks: seq<Chunk>
    var host: Host
    var seconds: seq<nat>

    function Model(): State
      reads this, audio
    {
      State(Session.Core(View(isRecording, isPlaying, duration, audioUrl), recorderRef, streamRef, timerRef,
                         chunks, Audio(audio.src, audio.playing), host),
            seconds)
    }

    predicate Valid()
      reads this, audio
    {
      Sane(Model())
    }

    constructor (maxDuration: int)
      ensures Valid() && Model() == Mounted && this.maxDuration == maxDuration
    {
      this.maxDuration := maxDuration;
      audio := new AudioElement();
      isRecording, isPlaying, duration, audioUrl := false, false, 0, NoUrl;
      recorderRef, streamRef, timerRef := None, None, None;
      chunks := [];
      host := NoHost;
      seconds := [];
    }

    /** The cleanup of the effect keyed on `audioUrl`, with the URL it captured. */
    method CleanupEffect(captured: Url)
      modifies this
      ensures Model() == old(Model()).(core := old(Model()).core.(host := Cleanup(old(host), streamRef, timerRef, captured)))
    {
      if streamRef.Some? {
        host := host.(streams := Release(host.streams, streamRef));
      }
      if timerRef.Some? {
        host := host.(timers := Release(host.timers, timerRef));
      }
      if captured.ObjectUrl? {
        host := host.(revoked := host.revoked + [captured.id]);
      }
    }

    /** `setState` with a new record, then the effect re-run when `audioUrl` changed. */
    method SetState(v: View)
      modifies this
      ensures Model() == old(Model()).(core := Session.Commit(old(Model()).core, v))
    {
      var captured := audioUrl;
      isRecording, isPlaying, duration, audioUrl := v.isRecording, v.isPlaying, v.duration, v.audioUrl;
      if v.audioUrl != captured {
        CleanupEffect(captured);
      }
    }

    method StartRecording(access: Session.Access)
      requires Valid()
      modifies this
      ensures Valid() && Model() == Start(old(Model()), access)
    {
      ghost var before := Model();
      StepKeepsSane(before, maxDuration, Event.StartRecording(access));
      if access == Session.Denied {
        return;
      }
      // getUserMedia resolved
      streamRef := Some(|host.streams|);
      host := host.(streams := host.streams + [true]);
      if access == Session.RecorderFails {
        assert Model() == Start(before, access);
        return;
      }
      var recorder := |host.recorders|;
      host := host.(recorders := host.recorders + [false]);
      recorderRef := Some(recorder);
      chunks := [];
      // mediaRecorder.start(1000)
      host := host.(recorders := host.recorders[recorder := true]);
      isRecording := true;
      // let seconds = 0; setInterval(...)
      timerRef := Some(|host.timers|);
      host := host.(timers := host.timers + [true]);
      seconds := seconds + [0];
      assert Model() == Start(before, access);
    }

    /** `ondataavailable` of recorder `rec`; `threw` when reading `data.size`
        throws. The handler appends to `chunksRef` whichever recorder fires, so
        `rec` only names an existing recorder. */
    method OnDataAvailable(rec: nat, data: Option<Chunk>) returns (threw: bool)
      requires Valid() && rec < |host.recorders|
      modifies this
      ensures threw == DataThrows(data)
      ensures Valid() && Model() == DataAvailable(old(Model()), data)
    {
      if data.None? {
        return true;
      }
      threw := false;
      if |data.value| > 0 {
        chunks := chunks + [data.value];
      }
    }

    /** `onstop` of recorder `rec`. The handler reads `chunksRef` and the
        current refs whichever recorder fires, so `rec` only names an existing
        recorder. */
    method OnRecorderStop(rec: nat)
      requires Valid() && rec < |host.recorders|
      modifies this
      ensures Valid() && Model() == old(Model()).(core := Session.RecorderStopped(old(Model()).core))
    {
      ghost var before := Model().core;
      var blob := Concat(chunks);
      var url := ObjectUrl(|host.urls|);
      host := host.(urls := host.urls + [blob]);
      SetState(View(isRecording, isPlaying, duration, url));
      host := host.(saved := host.saved + [blob]);
      Session.RecorderStoppedKeepsUrls(before);
    }

    method StopRecording()
      requires Valid()
      modifies this
      ensures Valid() && Model() == old(Model()).(core := Session.Stop(old(Model()).core))
    {
      if recorderRef.Some? && isRecording {
        host := host.(recorders := Release(host.recorders, recorderRef));
        host := host.(streams := Release(host.streams, streamRef));
        if timerRef.Some? {
          host := host.(timers := Release(host.timers, timerRef));
        }
        isRecording := false;
      }
    }

    /** A tick of interval `t`, which must still be scheduled. */
    method OnTick(t: nat)
      requires Valid() && t < |host.timers| && host.timers[t]
      modifies this
      ensures Valid() && Model() == Tick(old(Model()), t, maxDuration)
    {
      seconds := seconds[t := seconds[t] + 1];
      duration := seconds[t];
      if seconds[t] >= maxDuration {
        StopRecording();
      }
    }

    method TogglePlayback()
      requires Valid()
      modifies this, audio
      ensures Valid() && Model() == old(Model()).(core := Session.Toggle(old(Model()).core))
    {
      if isPlaying {
        audio.Pause();
      } else {
        audio.src := audioUrl;
        audio.Play();
      }
      isPlaying := !isPlaying;
    }

    /** The element's `onended`, after it reached the end of its source. */
    method OnEnded()
      requires Valid()
      modifies this, audio
      ensures Valid() && Model() == old(Model()).(core := Session.Ended(old(Model()).core))
    {
      audio.Finish();
      isPlaying := false;
    }

    method DeleteRecording()
      requires Valid()
      modifies this
      ensures Valid() && Model() == old(Model()).(core := Session.Delete(old(Model()).core))
    {
      ghost var before := Model().core;
      SetState(Initial);
      host := host.(deletes := host.deletes + 1);
      Session.DeleteKeepsUrls(before);
    }

    /** Unmounting the component: the effect cleanup with the current `audioUrl`.
        Afterwards every URL the hook created has been revoked exactly once. */
    method Unmount()
      requires Valid()
      modifies this
      ensures Model() == old(Model()).(core := Session.Unmount(old(Model()).core))
      ensures forall id :: 0 <= id < |host.urls| ==> multiset(host.revoked)[id] == 1
    {
      ghost var before := Model().core;
      CleanupEffect(audioUrl);
      Session.UnmountRevokesEveryUrl(before);
    }
  }
}
