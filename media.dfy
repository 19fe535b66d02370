/** The values a recording session handles: recorded bytes, object URLs,
    the hook's visible state record and the browser objects it acts on. */
module Media {

  newtype byte = x: int | 0 <= x < 256

  /** One `Blob` delivered by a MediaRecorder `dataavailable` event. */
  type Chunk = seq<byte>

  datatype Option<T> = None | Some(value: T)

  /** An `audioUrl` value: the empty string, or a URL returned by
      `URL.createObjectURL`, identified by the order in which it was created.
      `URL.createObjectURL` never returns the same URL twice. */
  datatype Url = NoUrl | ObjectUrl(id: nat)

  /** The hook's `AudioRecorderState`. */
  datatype View = View(isRecording: bool, isPlaying: bool, duration: int, audioUrl: Url)

  /** The record `useState` starts from and `deleteRecording` restores. */
  const Initial: View := View(false, false, 0, NoUrl)

  /** The `Audio` element in `audioRef`: its `src`, and whether it is playing
      (`play()` was called and neither `pause()` nor the end of the clip came after). */
  datatype Audio = Audio(src: Url, playing: bool)

  /** The `Audio` element object in `audioRef`, changed in place. */
  class AudioElement {
    var src: Url
    var playing: bool

    /** `new Audio()`: no source, not playing. */
    constructor ()
      ensures src == NoUrl && !playing
    {
      src, playing := NoUrl, false;
    }

    method Play()
      modifies this
      ensures src == old(src) && playing
    {
      playing := true;
    }

    method Pause()
      modifies this
      ensures src == old(src) && !playing
    {
      playing := false;
    }

    /** Playback reached the end of the source; `ended` fires next. */
    method Finish()
      modifies this
      ensures src == old(src) && !playing
    {
      playing := false;
    }
  }

  /** What lies outside the hook and is changed by it:
      - recorders[i]: MediaRecorder i is in its recording state;
      - streams[i]: the tracks of MediaStream i are still live;
      - timers[i]: interval i is still scheduled;
      - urls[i]: the bytes of the Blob behind object URL i;
      - revoked: the URL ids passed to `URL.revokeObjectURL`, in call order;
      - saved: the Blobs passed to `onSave`, in call order;
      - deletes: the number of `onDelete` calls. */
  datatype Host = Host(
    recorders: seq<bool>,
    streams: seq<bool>,
    timers: seq<bool>,
    urls: seq<seq<byte>>,
    revoked: seq<nat>,
    saved: seq<seq<byte>>,
    deletes: nat)

  const NoHost: Host := Host([], [], [], [], [], [], 0)

  /** Total number of bytes in a list of chunks. */
  function TotalSize(cs: seq<Chunk>): nat
  {
    if cs == [] then 0 else TotalSize(cs[..|cs| - 1]) + |cs[|cs| - 1]|
  }

  /** The bytes of `new Blob(chunks)`: the chunks joined in order. */
  function Concat(cs: seq<Chunk>): (r: seq<byte>)
    ensures |r| == TotalSize(cs)
  {
    if cs == [] then [] else Concat(cs[..|cs| - 1]) + cs[|cs| - 1]
  }

  /** Appending a chunk appends its bytes to the joined bytes. */
  lemma ConcatAppend(cs: seq<Chunk>, c: Chunk)
    ensures Concat(cs + [c]) == Concat(cs) + c
  {
  }

  /** Joining is compatible with splitting the chunk list anywhere. */
  lemma {:induction false} ConcatSplit(cs: seq<Chunk>, i: nat)
    requires i <= |cs|
    ensures Concat(cs) == Concat(cs[..i]) + Concat(cs[i..])
  {
    if i == |cs| {
      assert cs[..i] == cs;
      assert cs[i..] == [];
    } else {
      var init, last := cs[..|cs| - 1], cs[|cs| - 1];
      assert init[..i] == cs[..i];
      assert cs[i..] == init[i..] + [last];
      calc {
        Concat(cs);
        Concat(init) + last;
        { ConcatSplit(init, i); }
        (Concat(cs[..i]) + Concat(init[i..])) + last;
        Concat(cs[..i]) + (Concat(init[i..]) + last);
        { ConcatAppend(init[i..], last); }
        Concat(cs[..i]) + Concat(cs[i..]);
      }
    }
  }

  /** Chunk i occupies, in arrival order, the bytes of the joined Blob that
      follow the first i chunks. */
  lemma ChunkInPlace(cs: seq<Chunk>, i: nat)
    requires i < |cs|
    ensures TotalSize(cs[..i]) + |cs[i]| <= |Concat(cs)|
    ensures Concat(cs)[TotalSize(cs[..i])..TotalSize(cs[..i]) + |cs[i]|] == cs[i]
  {
    var before, rest := cs[..i], cs[i..];
    var front, back := Concat(before), Concat(rest[1..]);
    assert Concat(rest) == cs[i] + back by {
      ConcatSplit(rest, 1);
      assert rest[..1] == [cs[i]];
      assert Concat([cs[i]]) == cs[i] by {
        assert [cs[i]][..0] == [];
      }
    }
    assert Concat(cs) == front + (cs[i] + back) by {
      ConcatSplit(cs, i);
    }
    SliceMiddle(front, cs[i], back);
  }

  /** The middle part of three joined byte sequences, cut back out. */
  lemma SliceMiddle(x: seq<byte>, y: seq<byte>, z: seq<byte>)
    ensures |x| + |y| <= |x + (y + z)|
    ensures (x + (y + z))[|x|..|x| + |y|] == y
  {
  }

  /** The chunks `ondataavailable` keeps from a series of `data` values, in
      arrival order: the present, non-empty ones. */
  function Kept(ds: seq<Option<Chunk>>): (r: seq<Chunk>)
    ensures |r| <= |ds|
    decreases |ds|
  {
    if ds == [] then []
    else (if ds[0].Some? && |ds[0].value| > 0 then [ds[0].value] else []) + Kept(ds[1..])
  }

  /** Keeping chunks distributes over joining two series of `data` values. */
  lemma {:induction false} KeptAppend(a: seq<Option<Chunk>>, b: seq<Option<Chunk>>)
    ensures Kept(a + b) == Kept(a) + Kept(b)
    decreases |a|
  {
    if a == [] {
      assert a + b == b;
    } else {
      var k0 := if a[0].Some? && |a[0].value| > 0 then [a[0].value] else [];
      assert (a + b)[0] == a[0] && (a + b)[1..] == a[1..] + b;
      assert Kept(a + b) == k0 + Kept(a[1..] + b);
      KeptAppend(a[1..], b);
      assert Kept(a) == k0 + Kept(a[1..]);
      assert k0 + (Kept(a[1..]) + Kept(b)) == (k0 + Kept(a[1..])) + Kept(b);
    }
  }


  /** Stop the object a ref points to, if the ref is set (`ref.current?.stop()`). */
  function Release(flags: seq<bool>, ref: Option<nat>): (r: seq<bool>)
    ensures |r| == |flags|
    ensures forall i :: 0 <= i < |r| ==> r[i] == (flags[i] && ref != Some(i))
  {
    if ref.Some? && ref.value < |flags| then flags[ref.value := false] else flags
  }

  /** The cleanup of the effect keyed on `audioUrl`: stop the tracks of the
      stream in `streamRef`, clear the interval in `timerRef`, and revoke the
      URL the effect captured when it is not the empty string. */
  function Cleanup(h: Host, streamRef: Option<nat>, timerRef: Option<nat>, captured: Url): (r: Host)
    ensures r.streams == Release(h.streams, streamRef) && r.timers == Release(h.timers, timerRef)
    ensures r.revoked == h.revoked + (if captured.ObjectUrl? then [captured.id] else [])
    ensures r.recorders == h.recorders && r.urls == h.urls
    ensures r.saved == h.saved && r.deletes == h.deletes
  {
    h.(streams := Release(h.streams, streamRef),
       timers := Release(h.timers, timerRef),
       revoked := if captured.ObjectUrl? then h.revoked + [captured.id] else h.revoked)
  }
}
