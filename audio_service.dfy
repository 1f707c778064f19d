/**
 * The playback engine (audioService.ts). The Web Audio graph is reduced to
 * what its methods read and write: whether the graph exists, the audio the
 * media element holds, the playback position, the gain, the three filter
 * gains, the current track id, the playing flag and the listener set.
 *
 * The media element's 'play', 'pause' and 'ended' events are folded into
 * the call that causes them: `starts` says whether `play()` went through.
 */
module AudioService {
  import opened Spotify
  import DownloadService

  /** `Math.max(0, Math.min(1, level))` */
  function Clamp(level: real): (v: real)
    ensures 0.0 <= v <= 1.0
    ensures 0.0 <= level <= 1.0 ==> v == level
    ensures level < 0.0 ==> v == 0.0
    ensures level > 1.0 ==> v == 1.0
  {
    if level < 0.0 then 0.0 else if level > 1.0 then 1.0 else level
  }

  /** Listeners are told apart by a handle; the set keeps each handle once. */
  type Listener = nat

  class AudioPlayer {
    var initialized: bool
    var loaded: Option<Blob>
    var currentTime: real
    var gain: real
    var bass: int
    var mid: int
    var treble: int
    var currentTrackId: Option<string>
    var isPlaying: bool
    var listeners: set<Listener>

    /**
     * The gain stays in [0, 1]; before the graph exists nothing is loaded or
     * playing; and a track id is current exactly when its audio is loaded.
     */
    ghost predicate Valid()
      reads this
    {
      && 0.0 <= gain <= 1.0
      && (!initialized ==> loaded == None && !isPlaying && currentTime == 0.0)
      && (currentTrackId.Some? <==> loaded.Some?)
    }

    constructor ()
      ensures Valid()
      ensures !initialized && currentTrackId == None && !isPlaying && listeners == {}
    {
      initialized := false;
      loaded := None;
      currentTime := 0.0;
      gain := 1.0;
      bass, mid, treble := 0, 0, 0;
      currentTrackId := None;
      isPlaying := false;
      listeners := {};
    }

    /**
     * initialize: builds the graph once, with unit gain, flat filters and an
     * empty media element; on a built graph it does nothing.
     */
    method Initialize()
      requires Valid()
      modifies this`initialized, this`loaded, this`currentTime, this`gain, this`bass, this`mid, this`treble
      ensures Valid() && initialized
      ensures old(initialized) ==> unchanged(this)
      ensures !old(initialized) ==>
                loaded == None && currentTime == 0.0 && gain == 1.0 && bass == 0 && mid == 0 && treble == 0
    {
      if initialized {
        return;
      }
      initialized := true;
      loaded := None;
      currentTime := 0.0;
      gain := 1.0;
      bass, mid, treble := 0, 0, 0;
    }

    /**
     * playTrack: the same track while it plays is left alone; a track with
     * no stored audio changes nothing past building the graph; otherwise its
     * audio is loaded from the start and it becomes the current track,
     * playing when `play()` goes through.
     */
    method PlayTrack(trackId: string, store: DownloadService.ContentManager, starts: bool)
      requires Valid()
      modifies this`initialized, this`loaded, this`currentTime, this`gain, this`bass, this`mid, this`treble,
               this`currentTrackId, this`isPlaying
      ensures Valid() && initialized
      ensures old(currentTrackId) == Some(trackId) && old(isPlaying) ==> unchanged(this)
      ensures !(old(currentTrackId) == Some(trackId) && old(isPlaying)) && trackId !in store.blobs ==>
                currentTrackId == old(currentTrackId) && isPlaying == old(isPlaying)
      ensures old(initialized) ==> gain == old(gain) && bass == old(bass) && mid == old(mid) && treble == old(treble)
      ensures !old(initialized) ==> gain == 1.0 && bass == 0 && mid == 0 && treble == 0
      ensures trackId !in store.blobs ==> loaded == old(loaded) && currentTime == old(currentTime)
      ensures !(old(currentTrackId) == Some(trackId) && old(isPlaying)) && trackId in store.blobs ==>
                && currentTrackId == Some(trackId)
                && loaded == Some(store.blobs[trackId])
                && currentTime == 0.0
                && isPlaying == (starts || old(isPlaying))
    {
      Initialize();
      if currentTrackId == Some(trackId) && isPlaying {
        return;
      }
      var audio := store.GetTrackAudio(trackId);
      if audio.None? {
        return;
      }
      loaded := audio;
      currentTime := 0.0;
      currentTrackId := Some(trackId);
      if starts {
        isPlaying := true;
      }
    }

    /** togglePlayPause: pausing always lands; playing lands when `play()` goes through. */
    method TogglePlayPause(starts: bool)
      requires Valid()
      modifies this`isPlaying
      ensures Valid()
      ensures !initialized ==> isPlaying == old(isPlaying)
      ensures initialized && old(isPlaying) ==> !isPlaying
      ensures initialized && !old(isPlaying) ==> isPlaying == starts
    {
      if !initialized {
        return;
      }
      if isPlaying {
        isPlaying := false;
      } else if starts {
        isPlaying := true;
      }
    }

    /** stop: paused and rewound; the track stays loaded. */
    method Stop()
      requires Valid()
      modifies this`isPlaying, this`currentTime
      ensures Valid()
      ensures !isPlaying && currentTime == 0.0
    {
      if !initialized {
        return;
      }
      isPlaying := false;
      currentTime := 0.0;
    }

    /** setVolume: the clamped level, once the graph exists. */
    method SetVolume(level: real)
      requires Valid()
      modifies this`gain
      ensures Valid()
      ensures gain == if initialized then Clamp(level) else old(gain)
    {
      if !initialized {
        return;
      }
      gain := Clamp(level);
    }

    /** applyEQPreset: the preset's three gains, once the filters exist. */
    method ApplyEQPreset(preset: EQPreset)
      modifies this`bass, this`mid, this`treble
      ensures initialized ==> bass == preset.bass && mid == preset.mid && treble == preset.treble
      ensures !initialized ==> bass == old(bass) && mid == old(mid) && treble == old(treble)
    {
      SetEQBands(preset.bass, preset.mid, preset.treble);
    }

    /** setEQBands: the three given gains, once the filters exist. */
    method SetEQBands(b: int, m: int, t: int)
      modifies this`bass, this`mid, this`treble
      ensures initialized ==> bass == b && mid == m && treble == t
      ensures !initialized ==> bass == old(bass) && mid == old(mid) && treble == old(treble)
    {
      if !initialized {
        return;
      }
      bass, mid, treble := b, m, t;
    }

    /** seek */
    method Seek(seconds: real)
      requires Valid()
      modifies this`currentTime
      ensures Valid()
      ensures currentTime == if initialized then seconds else old(currentTime)
    {
      if !initialized {
        return;
      }
      currentTime := seconds;
    }

    /** The media element's 'ended' event. */
    method Ended()
      requires Valid()
      modifies this`isPlaying
      ensures Valid()
      ensures !isPlaying
    {
      if initialized {
        isPlaying := false;
      }
    }

    /** subscribe: the callback joins the set. */
    method Subscribe(callback: Listener)
      modifies this`listeners
      ensures listeners == old(listeners) + {callback}
    {
      listeners := listeners + {callback};
    }

    /** The function subscribe returns: that callback, and only it, leaves the set. */
    method Unsubscribe(callback: Listener)
      modifies this`listeners
      ensures listeners == old(listeners) - {callback}
    {
      listeners := listeners - {callback};
    }

    /**
     * dispose: the graph and the media element are dropped, nothing is
     * current or playing, and every listener is forgotten. The gains are
     * rebuilt by the next initialize.
     */
    method Dispose()
      requires Valid()
      modifies this`initialized, this`loaded, this`currentTime, this`currentTrackId, this`isPlaying, this`listeners
      ensures Valid()
      ensures !initialized && loaded == None && currentTime == 0.0
      ensures currentTrackId == None && !isPlaying && listeners == {}
    {
      initialized := false;
      loaded := None;
      currentTime := 0.0;
      currentTrackId := None;
      isPlaying := false;
      listeners := {};
    }
  }
}
