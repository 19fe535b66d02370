/** The state both copies of `useAudioRecorder` keep, and the handlers the two
    copies implement the same way: `onstop`, `stopRecording`,
    `togglePlayback`, the `onended` handler, `deleteRecording`, and the effect
    keyed on `audioUrl` with its cleanup.

    React's `setState` updaters are applied to one mutable record at once, so
    every handler reads the latest state (see README for what this leaves out). */
module Session {
  import opened Media

  /** One mounted hook: its state record, its refs (`mediaRecorderRef`,
      `streamRef`, `timerRef`, `chunksRef`, `audioRef`) and the outside world. */
  datatype Core = Core(
    view: View,
    recorderRef: Option<nat>,
    streamRef: Option<nat>,
    timerRef: Option<nat>,
    chunks: seq<Chunk>,
    audio: Audio,
    host: Host)

  /** The hook on its first render. */
  const Mounted: Core := Core(Initial, None, None, None, [], Audio(NoUrl, false), NoHost)

  /** How the `getUserMedia` / `new MediaRecorder` part of `startRecording` ends:
      access refused, access granted but the recorder constructor throws, or both succeed. */
  datatype Access = Denied | RecorderFails | Granted

  /** Replace the state record. After the render that commits a changed
      `audioUrl`, React runs the cleanup of the effect keyed on `audioUrl`, with
      the URL that effect captured; the model commits at once and runs it here. */
  function Commit(s: Core, v: View): (r: Core)
    ensures r.view == v
    ensures v.audioUrl == s.view.audioUrl ==> r.host == s.host
    ensures v.audioUrl != s.view.audioUrl ==>
              r.host.streams == Release(s.host.streams, s.streamRef) &&
              r.host.timers == Release(s.host.timers, s.timerRef) &&
              r.host.revoked == s.host.revoked + (if s.view.audioUrl.ObjectUrl? then [s.view.audioUrl.id] else [])
    ensures r.host.recorders == s.host.recorders && r.host.urls == s.host.urls
    ensures r.host.saved == s.host.saved && r.host.deletes == s.host.deletes
    ensures r.chunks == s.chunks && r.audio == s.audio
    ensures r.recorderRef == s.recorderRef && r.streamRef == s.streamRef && r.timerRef == s.timerRef
  {
    if v.audioUrl == s.view.audioUrl then s.(view := v)
    else s.(view := v, host := Cleanup(s.host, s.streamRef, s.timerRef, s.view.audioUrl))
  }

  /** The current `audioUrl` is empty or one this host created. */
  predicate UrlKnown(s: Core)
  {
    s.view.audioUrl.ObjectUrl? ==> s.view.audioUrl.id < |s.host.urls|
  }

  /** Every object URL the hook created is either the current `audioUrl`, never
      revoked, or has been revoked exactly once; nothing else was revoked. */
  predicate UrlsAccounted(s: Core)
  {
    UrlKnown(s) &&
    (forall x :: x in s.host.revoked ==> x < |s.host.urls|) &&
    (forall id :: 0 <= id < |s.host.urls| ==>
       multiset(s.host.revoked)[id] == if s.view.audioUrl == ObjectUrl(id) then 0 else 1)
  }

  /** The recorder's `onstop`: a Blob of all chunks in arrival order, a fresh
      object URL for it stored in `audioUrl`, and `onSave` called once with it.
      The new `audioUrl` re-runs the effect, whose cleanup stops the tracks of
      whatever stream `streamRef` holds then and clears whatever interval
      `timerRef` holds then, even when those belong to a later recording. */
  function RecorderStopped(s: Core): (r: Core)
    ensures r.host.saved == s.host.saved + [Concat(s.chunks)]
    ensures r.host.urls == s.host.urls + [Concat(s.chunks)]
    ensures r.view == s.view.(audioUrl := ObjectUrl(|s.host.urls|))
    ensures UrlKnown(s) ==> r.view.audioUrl != s.view.audioUrl
    ensures UrlKnown(s) ==>
              r.host.revoked == s.host.revoked + if s.view.audioUrl.ObjectUrl? then [s.view.audioUrl.id] else []
    ensures UrlKnown(s) ==>
              r.host.streams == Release(s.host.streams, s.streamRef) &&
              r.host.timers == Release(s.host.timers, s.timerRef)
    ensures r.chunks == s.chunks && r.audio == s.audio
    ensures r.recorderRef == s.recorderRef && r.streamRef == s.streamRef && r.timerRef == s.timerRef
    ensures r.host.recorders == s.host.recorders && r.host.deletes == s.host.deletes
  {
    var blob := Concat(s.chunks);
    var url := ObjectUrl(|s.host.urls|);
    var created := s.(host := s.host.(urls := s.host.urls + [blob]));
    var committed := Commit(created, s.view.(audioUrl := url));
    committed.(host := committed.host.(saved := committed.host.saved + [blob]))
  }

  /** The guard of `stopRecording`: a recorder exists and `isRecording` holds. */
  predicate CanStop(s: Core)
  {
    s.recorderRef.Some? && s.view.isRecording
  }

  /** `stopRecording`: past its guard, stop the recorder, stop the stream's
      tracks, clear the interval and clear `isRecording`; otherwise nothing. */
  function Stop(s: Core): (r: Core)
    ensures !CanStop(s) ==> r == s
    ensures CanStop(s) ==> r.view == s.view.(isRecording := false)
    ensures CanStop(s) ==> r.host.recorders == Release(s.host.recorders, s.recorderRef)
    ensures CanStop(s) ==> r.host.streams == Release(s.host.streams, s.streamRef)
    ensures CanStop(s) ==> r.host.timers == Release(s.host.timers, s.timerRef)
    ensures r.host.urls == s.host.urls && r.host.revoked == s.host.revoked
    ensures r.host.saved == s.host.saved && r.host.deletes == s.host.deletes
    ensures r.chunks == s.chunks && r.audio == s.audio
    ensures r.recorderRef == s.recorderRef && r.streamRef == s.streamRef && r.timerRef == s.timerRef
  {
    if CanStop(s) then
      s.(view := s.view.(isRecording := false),
         host := s.host.(recorders := Release(s.host.recorders, s.recorderRef),
                         streams := Release(s.host.streams, s.streamRef),
                         timers := Release(s.host.timers, s.timerRef)))
    else s
  }

  /** `togglePlayback`: pause when playing, otherwise point the element at
      `audioUrl` and play; `isPlaying` flips. Nothing checks that a clip exists. */
  function Toggle(s: Core): (r: Core)
    ensures r.view == s.view.(isPlaying := !s.view.isPlaying)
    ensures s.view.isPlaying ==> r.audio == s.audio.(playing := false)
    ensures !s.view.isPlaying ==> r.audio == Audio(s.view.audioUrl, true)
    ensures r.host == s.host && r.chunks == s.chunks
    ensures r.recorderRef == s.recorderRef && r.streamRef == s.streamRef && r.timerRef == s.timerRef
  {
    if s.view.isPlaying then
      s.(audio := s.audio.(playing := false), view := s.view.(isPlaying := false))
    else
      s.(audio := Audio(s.view.audioUrl, true), view := s.view.(isPlaying := true))
  }

  /** The element's `onended` handler, after the element reached the end of its source. */
  function Ended(s: Core): (r: Core)
    ensures !r.audio.playing
    ensures r.view == s.view.(isPlaying := false) && r.audio.src == s.audio.src
    ensures r.host == s.host && r.chunks == s.chunks
    ensures r.recorderRef == s.recorderRef && r.streamRef == s.streamRef && r.timerRef == s.timerRef
  {
    s.(audio := s.audio.(playing := false), view := s.view.(isPlaying := false))
  }

  /** `deleteRecording`: restore the initial record and call `onDelete`. It
      stops no recorder and no element and keeps the chunks; only the effect
      cleanup, run when `audioUrl` was set, stops tracks, clears the interval
      and revokes the old URL. */
  function Delete(s: Core): (r: Core)
    ensures r.view == Initial
    ensures r.host.deletes == s.host.deletes + 1
    ensures r.host.revoked
         == s.host.revoked + if s.view.audioUrl.ObjectUrl? then [s.view.audioUrl.id] else []
    ensures s.view.audioUrl == NoUrl ==> r.host == s.host.(deletes := s.host.deletes + 1)
    ensures s.view.audioUrl != NoUrl ==>
              r.host.streams == Release(s.host.streams, s.streamRef) &&
              r.host.timers == Release(s.host.timers, s.timerRef)
    ensures r.host.recorders == s.host.recorders && r.host.urls == s.host.urls
    ensures r.host.saved == s.host.saved
    ensures r.chunks == s.chunks && r.audio == s.audio
    ensures r.recorderRef == s.recorderRef && r.streamRef == s.streamRef && r.timerRef == s.timerRef
  {
    var committed := Commit(s, Initial);
    committed.(host := committed.host.(deletes := committed.host.deletes + 1))
  }

  /** Unmounting runs the effect cleanup with the current `audioUrl`. */
  function Unmount(s: Core): (r: Core)
    ensures r.host.streams == Release(s.host.streams, s.streamRef)
    ensures r.host.timers == Release(s.host.timers, s.timerRef)
    ensures r.host.revoked
         == s.host.revoked + if s.view.audioUrl.ObjectUrl? then [s.view.audioUrl.id] else []
    ensures r.host.recorders == s.host.recorders && r.host.urls == s.host.urls
    ensures r.host.saved == s.host.saved && r.host.deletes == s.host.deletes
    ensures r.view == s.view && r.chunks == s.chunks && r.audio == s.audio
    ensures r.recorderRef == s.recorderRef && r.streamRef == s.streamRef && r.timerRef == s.timerRef
  {
    s.(host := Cleanup(s.host, s.streamRef, s.timerRef, s.view.audioUrl))
  }

  lemma MountedAccounted()
    ensures UrlsAccounted(Mounted)
  {
  }

  /** A transition that creates and revokes no URL and keeps `audioUrl` keeps every URL accounted. */
  lemma SameUrls(s: Core, t: Core)
    requires UrlsAccounted(s)
    requires t.host.urls == s.host.urls && t.host.revoked == s.host.revoked
    requires t.view.audioUrl == s.view.audioUrl
    ensures UrlsAccounted(t)
  {
  }

  /** A new record that keeps `audioUrl` or clears it keeps every URL accounted. */
  lemma CommitKeepsUrls(s: Core, v: View)
    requires UrlsAccounted(s)
    requires v.audioUrl == s.view.audioUrl || v.audioUrl == NoUrl
    ensures UrlsAccounted(Commit(s, v))
  {
  }

  /** `onstop` replaces the current URL with a fresh one and revokes the old one once. */
  lemma RecorderStoppedKeepsUrls(s: Core)
    requires UrlsAccounted(s)
    ensures UrlsAccounted(RecorderStopped(s))
  {
    var r := RecorderStopped(s);
    var n := |s.host.urls|;
    assert n !in s.host.revoked;
    forall x | x in r.host.revoked ensures x < |r.host.urls| {
    }
    forall id | 0 <= id < |r.host.urls|
      ensures multiset(r.host.revoked)[id] == if r.view.audioUrl == ObjectUrl(id) then 0 else 1
    {
      if s.view.audioUrl.ObjectUrl? {
        assert multiset(r.host.revoked)[id]
            == multiset(s.host.revoked)[id] + (if id == s.view.audioUrl.id then 1 else 0);
      }
      if id == n {
        assert multiset(s.host.revoked)[id] == 0;
      }
    }
  }

  lemma DeleteKeepsUrls(s: Core)
    requires UrlsAccounted(s)
    ensures UrlsAccounted(Delete(s))
  {
    CommitKeepsUrls(s, Initial);
  }

  /** After unmounting, every object URL the hook ever created has been revoked
      exactly once, and nothing else has been revoked. */
  lemma UnmountRevokesEveryUrl(s: Core)
    requires UrlsAccounted(s)
    ensures forall x :: x in Unmount(s).host.revoked ==> x < |Unmount(s).host.urls|
    ensures forall id :: 0 <= id < |Unmount(s).host.urls| ==> multiset(Unmount(s).host.revoked)[id] == 1
  {
  }

  /** Toggling twice restores `isPlaying`. */
  lemma ToggleTwice(s: Core)
    ensures Toggle(Toggle(s)).view == s.view
  {
  }

  /** Deleting twice leaves the same state as deleting once; only `onDelete` is called again. */
  lemma DeleteTwice(s: Core)
    ensures Delete(Delete(s)) == Delete(s).(host := Delete(s).host.(deletes := s.host.deletes + 2))
  {
  }

  /** Deleting while a clip plays leaves the element playing the URL that the
      delete revoked: nothing pauses it. */
  lemma DeleteWhilePlaying(s: Core)
    requires UrlsAccounted(s)
    requires s.view.audioUrl.ObjectUrl? && s.audio == Audio(s.view.audioUrl, true)
    ensures Delete(s).audio.playing && !Delete(s).view.isPlaying
    ensures Delete(s).audio.src.ObjectUrl?
    ensures multiset(Delete(s).host.revoked)[Delete(s).audio.src.id] == 1
  {
  }
}
