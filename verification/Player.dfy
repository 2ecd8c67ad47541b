/**
 * The bottom player (components/cards/player.jsx) without React and without the
 * real `<audio>` element. The pure parts, the stream-URL fallback and
 * `formatTime`, are functions. The handlers work by mutation: they assign fields
 * of `audioRef.current` and call state setters. They are methods of class
 * `Player`, whose fields are the component's state, the two values it takes from
 * the music context (`music`, `current`) and `localStorage`; the element behind
 * `audioRef.current` is class `AudioElement`, and its `play()` / `pause()` calls
 * are recorded in order. Each method is specified by a step function on a
 * `PlayerState` value, and the lemmas below state what those steps promise.
 */
module Player {
  import opened Wrappers
  import opened Text

  // ---------------------------------------------------------------------------
  // Stream URL choice in getSong

  /** The `url` of one entry of the fetched song's `downloadUrl` list; it may be missing. */
  type Candidate = Option<string>

  /** Candidate `k` exists and its url is truthy (present and non-empty). */
  predicate Usable(urls: seq<Candidate>, k: nat) {
    k < |urls| && urls[k].Some? && urls[k].value != ""
  }

  /** The index `getSong` reads: 2 if usable, else 1 if usable, else 0. */
  function ChosenIndex(urls: seq<Candidate>): (k: nat)
    ensures k <= 2
    ensures k > 0 ==> Usable(urls, k)
    ensures forall j :: k < j <= 2 ==> !Usable(urls, j)
  {
    if Usable(urls, 2) then 2 else if Usable(urls, 1) then 1 else 0
  }

  /** The value handed to `setAudioURL`; `None` stands for `undefined`. */
  function StreamUrl(urls: seq<Candidate>): (u: Option<string>)
    ensures ChosenIndex(urls) < |urls| ==> u == urls[ChosenIndex(urls)]
    ensures (u.Some? && u.value != "") <==> exists j :: 0 <= j <= 2 && Usable(urls, j)
    ensures urls == [] ==> u == None
  {
    var k := ChosenIndex(urls);
    assert k < |urls| && urls[k].Some? && urls[k].value != "" ==> Usable(urls, k);
    if k < |urls| then urls[k] else None
  }

  // ---------------------------------------------------------------------------
  // formatTime

  /** `formatTime`: minutes and seconds, each padded to two digits, joined by `:`. */
  function FormatTime(time: int): string {
    PadStart(IntToDecimal(time / 60), 2, '0') + ":" + PadStart(IntToDecimal(JsRem(time, 60)), 2, '0')
  }

  /**
   * For a non-negative time the text is `MM:SS`: the minutes padded to exactly
   * two digits (or unpadded from 10 on), a colon, a two-digit field below 60,
   * and minutes * 60 + seconds gives the time back.
   */
  lemma FormatTimeClock(time: nat)
    ensures IsClock(FormatTime(time), 2)
    ensures FormatTime(time)[..|FormatTime(time)| - 3] == PadStart(NatToDecimal(time / 60), 2, '0')
    ensures ClockSeconds(FormatTime(time)) < 60
    ensures ClockMinutes(FormatTime(time)) * 60 + ClockSeconds(FormatTime(time)) == time
  {
    var mins, secs := time / 60, time % 60;
    var m := PadStart(NatToDecimal(mins), 2, '0');
    var sec := PadStart(NatToDecimal(secs), 2, '0');
    FormatTimeFields(time);
    ShortDecimal(secs);
    ZeroPaddedDecimal(mins, 2);
    ZeroPaddedDecimal(secs, 2);
    JoinClock(m, sec, 2);
  }

  /** For a non-negative time both fields are padded decimals of the whole minutes and the remaining seconds. */
  lemma FormatTimeFields(time: nat)
    ensures FormatTime(time) == PadStart(NatToDecimal(time / 60), 2, '0') + ":" + PadStart(NatToDecimal(time % 60), 2, '0')
  {
    assert JsRem(time, 60) == time % 60;
  }

  // ---------------------------------------------------------------------------
  // Player state as a value, and the steps the handlers take

  /** A call made on the audio element. */
  datatype MediaCall = PlayCall | PauseCall

  /** The fields of `audioRef.current` the component reads or writes. */
  datatype AudioState = AudioState(
    currentTime: int, duration: int, loop: bool, src: Option<string>, calls: seq<MediaCall>)

  /** The component's state, the music context's `music` / `current`, and `localStorage`. */
  datatype PlayerState = PlayerState(
    playing: bool,
    isLooping: bool,
    currentTime: int,
    duration: int,
    audioURL: Option<string>,
    music: Option<string>,
    current: int,
    storage: map<string, string>,
    audio: AudioState)

  /** JavaScript truthiness of a possibly-null string. */
  predicate Truthy(v: Option<string>) {
    v.Some? && v.value != ""
  }

  function GetItem(storage: map<string, string>, key: string): Option<string> {
    if key in storage then Some(storage[key]) else None
  }

  /** `(p == "true" && true) || (!p && true)` for `p = localStorage.getItem("p")`. */
  function ShouldAutoplay(p: Option<string>): bool {
    p == Some("true") || !Truthy(p)
  }

  function TogglePlayPauseStep(s: PlayerState): PlayerState {
    var call := if s.playing then PauseCall else PlayCall;
    s.(playing := !s.playing, audio := s.audio.(calls := s.audio.calls + [call]))
  }

  function SeekStep(s: PlayerState, seekTime: int): PlayerState {
    s.(currentTime := seekTime, audio := s.audio.(currentTime := seekTime))
  }

  function LoopStep(s: PlayerState): PlayerState {
    s.(isLooping := !s.isLooping, audio := s.audio.(loop := !s.audio.loop))
  }

  /** `handleTimeUpdate`; `readFails` stands for `audioRef.current` being gone when the event fires. */
  function TimeUpdateStep(s: PlayerState, readFails: bool): PlayerState {
    if readFails then s.(playing := false)
    else s.(currentTime := s.audio.currentTime, duration := s.audio.duration, current := s.audio.currentTime)
  }

  /** The synchronous part of the effect that runs when `music` changes. */
  function MusicEffectStep(s: PlayerState): PlayerState {
    if !Truthy(s.music) then s
    else
      var resumed := if s.current != 0 then s.audio.(currentTime := s.current + 1) else s.audio;
      s.(audio := resumed, playing := ShouldAutoplay(GetItem(s.storage, "p")))
  }

  /** The end of `getSong`, once the fetched song's `downloadUrl` list is known. */
  function SongLoadedStep(s: PlayerState, urls: seq<Candidate>): PlayerState {
    s.(audioURL := StreamUrl(urls))
  }

  /** The close button. */
  function CloseStep(s: PlayerState): PlayerState {
    s.(music := None, current := 0, storage := map[],
       audio := s.audio.(currentTime := 0, src := None), audioURL := None)
  }

  /** The `<audio>` element's `onPlay` / `onPause` / `onLoadedData` handlers. */
  function PlayEventStep(s: PlayerState): PlayerState {
    s.(playing := true)
  }

  function PauseEventStep(s: PlayerState): PlayerState {
    s.(playing := false)
  }

  function LoadedDataStep(s: PlayerState): PlayerState {
    s.(duration := s.audio.duration)
  }

  // ---------------------------------------------------------------------------
  // What the steps promise

  /** The loop button keeps the element's `loop` and `isLooping` in step. */
  predicate LoopInSync(s: PlayerState) {
    s.audio.loop == s.isLooping
  }

  /** `togglePlayPause` pauses when playing and plays otherwise, and negates `playing`; nothing else changes. */
  lemma TogglePlayPauseEffect(s: PlayerState)
    ensures var t := TogglePlayPauseStep(s);
            && t.playing == !s.playing
            && t.audio.calls == s.audio.calls + [if s.playing then PauseCall else PlayCall]
            && t.(playing := s.playing, audio := s.audio) == s
            && t.audio.(calls := s.audio.calls) == s.audio
  {
  }

  /** Two toggles restore `playing` and leave one pause and one play call behind. */
  lemma TogglePlayPauseTwice(s: PlayerState)
    ensures var t := TogglePlayPauseStep(TogglePlayPauseStep(s));
            && t.playing == s.playing
            && t.audio.calls == s.audio.calls + (if s.playing then [PauseCall, PlayCall] else [PlayCall, PauseCall])
            && t.(audio := s.audio) == s
  {
  }

  /** `handleSeek` sets both positions to exactly the requested time, unclamped; nothing else changes. */
  lemma SeekEffect(s: PlayerState, seekTime: int)
    ensures var t := SeekStep(s, seekTime);
            && t.currentTime == seekTime && t.audio.currentTime == seekTime
            && t.(currentTime := s.currentTime, audio := s.audio) == s
            && t.audio.(currentTime := s.audio.currentTime) == s.audio
  {
  }

  /** `loopSong` flips both flags, keeps them in sync, leaves `playing` alone, and undoes itself. */
  lemma LoopEffect(s: PlayerState)
    ensures LoopStep(s).isLooping == !s.isLooping && LoopStep(s).audio.loop == !s.audio.loop
    ensures LoopInSync(s) ==> LoopInSync(LoopStep(s))
    ensures LoopStep(s).playing == s.playing
    ensures LoopStep(LoopStep(s)) == s
  {
  }

  /** A time update copies the element's position and duration, or stops `playing` when the read fails. */
  lemma TimeUpdateEffect(s: PlayerState, readFails: bool)
    ensures var t := TimeUpdateStep(s, readFails);
            && (!readFails ==> t.currentTime == s.audio.currentTime && t.current == s.audio.currentTime
                               && t.duration == s.audio.duration && t.playing == s.playing)
            && (readFails ==> !t.playing && t.(playing := s.playing) == s)
            && t.audio == s.audio
  {
  }

  /**
   * The autoplay decision: play unless the stored flag `"p"` is a non-empty
   * string other than `"true"`. The empty string counts as absent.
   */
  lemma AutoplayDecision(p: Option<string>)
    ensures ShouldAutoplay(p) <==> (p == None || p == Some("true") || p == Some(""))
  {
  }

  /**
   * The effect, when a song is selected: the element resumes one second past a
   * nonzero saved `current`, and `playing` follows the stored flag. Without a
   * selected song nothing changes.
   */
  lemma MusicEffect(s: PlayerState)
    ensures var t := MusicEffectStep(s);
            && (!Truthy(s.music) ==> t == s)
            && (Truthy(s.music) ==>
                  && t.playing == ShouldAutoplay(GetItem(s.storage, "p"))
                  && t.audio.currentTime == (if s.current != 0 then s.current + 1 else s.audio.currentTime)
                  && t.(playing := s.playing, audio := s.audio) == s)
  {
  }

  /** The close button clears the song, the saved position, the element's position and source, and storage. */
  lemma CloseEffect(s: PlayerState)
    ensures var t := CloseStep(s);
            && t.music == None && t.current == 0 && t.audioURL == None && t.storage == map[]
            && t.audio.currentTime == 0 && t.audio.src == None
            && t.playing == s.playing && t.isLooping == s.isLooping && t.audio.loop == s.audio.loop
            && !Truthy(t.music) && MusicEffectStep(t) == t
  {
  }

  // ---------------------------------------------------------------------------
  // The component and its audio element

  class AudioElement {
    var currentTime: int
    var duration: int
    var loop: bool
    var src: Option<string>
    var calls: seq<MediaCall>

    /** A fresh element: at the start, looping off, no calls yet, and the first render's empty `src`. */
    constructor ()
      ensures currentTime == 0 && duration == 0 && !loop && src == Some("") && calls == []
    {
      currentTime, duration, loop, src, calls := 0, 0, false, Some(""), [];
    }
  }

  class Player {
    var playing: bool
    var isLooping: bool
    var currentTime: int
    var duration: int
    var audioURL: Option<string>
    var music: Option<string>
    var current: int
    var storage: map<string, string>
    const audio: AudioElement

    function State(): PlayerState
      reads this, audio
    {
      PlayerState(playing, isLooping, currentTime, duration, audioURL, music, current, storage,
                  AudioState(audio.currentTime, audio.duration, audio.loop, audio.src, audio.calls))
    }

    predicate Valid()
      reads this, audio
    {
      LoopInSync(State())
    }

    /** The first render: the state hooks' initial values, with the context's song and position. */
    constructor (music: Option<string>, current: int, storage: map<string, string>)
      ensures Valid() && fresh(audio)
      ensures !playing && !isLooping && currentTime == 0 && duration == 0 && audioURL == Some("")
      ensures this.music == music && this.current == current && this.storage == storage
      ensures audio.currentTime == 0 && audio.calls == []
    {
      playing, isLooping, currentTime, duration, audioURL := false, false, 0, 0, Some("");
      this.music, this.current, this.storage := music, current, storage;
      audio := new AudioElement();
    }

    method TogglePlayPause()
      requires Valid()
      modifies this, audio
      ensures Valid()
      ensures State() == TogglePlayPauseStep(old(State()))
    {
      if playing {
        audio.calls := audio.calls + [PauseCall];
      } else {
        audio.calls := audio.calls + [PlayCall];
      }
      playing := !playing;
    }

    method HandleSeek(seekTime: int)
      requires Valid()
      modifies this, audio
      ensures Valid()
      ensures State() == SeekStep(old(State()), seekTime)
    {
      audio.currentTime := seekTime;
      currentTime := seekTime;
    }

    method LoopSong()
      requires Valid()
      modifies this, audio
      ensures Valid()
      ensures State() == LoopStep(old(State()))
    {
      audio.loop := !audio.loop;
      isLooping := !isLooping;
    }

    method HandleTimeUpdate(readFails: bool)
      requires Valid()
      modifies this
      ensures Valid()
      ensures State() == TimeUpdateStep(old(State()), readFails)
    {
      if readFails {
        playing := false;
      } else {
        currentTime := audio.currentTime;
        duration := audio.duration;
        current := audio.currentTime;
      }
    }

    /** The effect on `[music]`, up to registering the time-update listener. */
    method OnMusicChange()
      requires Valid()
      modifies this, audio
      ensures Valid()
      ensures State() == MusicEffectStep(old(State()))
    {
      if music.Some? && music.value != "" {
        if current != 0 {
          audio.currentTime := current + 1;
        }
        var p := GetItem(storage, "p");
        playing := p == Some("true") || !(p.Some? && p.value != "");
      }
    }

    method OnSongLoaded(urls: seq<Candidate>)
      requires Valid()
      modifies this
      ensures Valid()
      ensures State() == SongLoadedStep(old(State()), urls)
    {
      if Usable(urls, 2) {
        audioURL := urls[2];
      } else if Usable(urls, 1) {
        audioURL := urls[1];
      } else if |urls| > 0 {
        audioURL := urls[0];
      } else {
        audioURL := None;
      }
    }

    method Close()
      requires Valid()
      modifies this, audio
      ensures Valid()
      ensures State() == CloseStep(old(State()))
    {
      music := None;
      current := 0;
      storage := map[];
      audio.currentTime := 0;
      audio.src := None;
      audioURL := None;
    }

    method OnPlay()
      requires Valid()
      modifies this
      ensures Valid()
      ensures State() == PlayEventStep(old(State()))
    {
      playing := true;
    }

    method OnPause()
      requires Valid()
      modifies this
      ensures Valid()
      ensures State() == PauseEventStep(old(State()))
    {
      playing := false;
    }

    method OnLoadedData()
      requires Valid()
      modifies this
      ensures Valid()
      ensures State() == LoadedDataStep(old(State()))
    {
      duration := audio.duration;
    }
  }
}
