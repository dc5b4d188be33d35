/**
 * Playback transport: the audio player card of the front end.
 *
 * Times, percentages and volumes are exact reals; no IEEE rounding, NaN or Infinity.
 * The media element is `AudioElement`, reduced to the attributes the player reads and writes.
 */
module Playback {
  import opened Options

  /** An object URL handed to the player (`URL.createObjectURL`), treated as an opaque token. */
  datatype Url = ObjectUrl(handle: nat)

  // ---------------------------------------------------------------------------
  // formatTime

  /** The decimal digit character for `d`. */
  function DigitChar(d: nat): (c: char)
    requires d < 10
    ensures '0' <= c <= '9'
  {
    (48 + d) as char
  }

  predicate IsDigits(s: string) {
    forall i :: 0 <= i < |s| ==> '0' <= s[i] <= '9'
  }

  /** The number a string of decimal digits denotes. */
  function DecimalValue(s: string): nat
    requires IsDigits(s)
  {
    if s == [] then 0 else DecimalValue(s[..|s| - 1]) * 10 + (s[|s| - 1] as nat - 48)
  }

  /** `n.toString()` for a natural number: its decimal digits, without leading zeros. */
  function Decimal(n: nat): (s: string)
    ensures |s| >= 1 && IsDigits(s)
    ensures |s| == 1 <==> n < 10
    ensures s[0] == '0' ==> n == 0
  {
    if n < 10 then [DigitChar(n)] else Decimal(n / 10) + [DigitChar(n % 10)]
  }

  /** Reading the digits of `n` back gives `n`. */
  lemma {:induction false} DecimalRoundTrip(n: nat)
    ensures DecimalValue(Decimal(n)) == n
  {
    if n >= 10 {
      var s := Decimal(n);
      assert s[..|s| - 1] == Decimal(n / 10);
      DecimalRoundTrip(n / 10);
    }
  }

  /** `s.padStart(2, "0")`: a string of two or more characters is unchanged; a shorter one is
      filled up to two characters with zeros in front. */
  function PadStart2(s: string): (r: string)
    ensures |s| >= 2 ==> r == s
    ensures |s| < 2 ==> |r| == 2 && r[2 - |s|..] == s && forall i :: 0 <= i < 2 - |s| ==> r[i] == '0'
  {
    if |s| == 0 then "00" else if |s| == 1 then "0" + s else s
  }

  /** `formatTime` for a whole number of seconds `t`: minutes, a colon, two-digit seconds. */
  function FormatTime(t: nat): (s: string)
    ensures |s| >= 4 && s[|s| - 3] == ':'
    ensures IsDigits(s[..|s| - 3]) && IsDigits(s[|s| - 2..])
  {
    var mm, ss := Decimal(t / 60), PadStart2(Decimal(t % 60));
    assert |ss| == 2 && IsDigits(ss);
    assert (mm + ":" + ss)[..|mm|] == mm;
    assert (mm + ":" + ss)[|mm| + 1..] == ss;
    mm + ":" + ss
  }

  /** `formatTime` as written, on a non-negative time in seconds:
      `Math.floor(time / 60)` and `Math.floor(time % 60)`. For such times JavaScript's `%`
      is `time - 60 * Math.floor(time / 60)`. */
  function FormatSeconds(time: real): (s: string)
    requires time >= 0.0
    ensures s == FormatTime(time.Floor)
  {
    var minutes := (time / 60.0).Floor;
    var seconds := (time - 60.0 * minutes as real).Floor;
    FloorsAgree(time);
    Decimal(minutes) + ":" + PadStart2(Decimal(seconds))
  }

  /** The two floors of `formatTime` are the quotient and remainder of the whole seconds. */
  lemma FloorsAgree(time: real)
    requires time >= 0.0
    ensures (time / 60.0).Floor == time.Floor / 60
    ensures (time - 60.0 * (time / 60.0).Floor as real).Floor == time.Floor % 60
  {
    var n := time.Floor;
    var q, m := n / 60, n % 60;
    assert n as real <= time < n as real + 1.0;
    assert n == 60 * q + m;
    assert q as real <= time / 60.0 < q as real + 1.0;
    assert (time / 60.0).Floor == q;
    var rest := time - 60.0 * q as real;
    assert m as real <= rest < m as real + 1.0;
  }

  /** Reads a `M:SS` label back into seconds; None when `s` is not of that shape. */
  function ParseTime(s: string): Option<nat> {
    if |s| >= 4 && s[|s| - 3] == ':' && IsDigits(s[..|s| - 3]) && IsDigits(s[|s| - 2..])
    then Some(DecimalValue(s[..|s| - 3]) * 60 + DecimalValue(s[|s| - 2..]))
    else None
  }

  /** A label `mm:ss` with a two-character seconds field cuts back into its two fields. */
  lemma ColonFields(mm: string, ss: string)
    requires |ss| == 2
    ensures var s := mm + ":" + ss; s[..|s| - 3] == mm && s[|s| - 2..] == ss
  {
    var s := mm + ":" + ss;
    assert s[..|mm|] == mm;
    assert s[|mm| + 1..] == ss;
  }

  /** The label has a minutes field of digits, a colon, and a seconds field of exactly two
      digits whose value is below 60; minutes * 60 + seconds is the time again. */
  lemma FormatTimeFields(t: nat)
    ensures var s := FormatTime(t);
      |s| >= 4 && s[|s| - 3] == ':' && IsDigits(s[..|s| - 3]) && IsDigits(s[|s| - 2..]) &&
      s[..|s| - 3] == Decimal(t / 60) &&
      DecimalValue(s[|s| - 2..]) == t % 60 < 60 &&
      DecimalValue(s[..|s| - 3]) * 60 + DecimalValue(s[|s| - 2..]) == t
  {
    var mm, ss := Decimal(t / 60), PadStart2(Decimal(t % 60));
    ColonFields(mm, ss);
    DecimalRoundTrip(t / 60);
    DecimalRoundTrip(t % 60);
    if t % 60 < 10 {
      assert ss == "0" + Decimal(t % 60);
      assert ss[1..] == Decimal(t % 60);
      assert ss[..1] == "0";
    }
  }

  /** Round trip: parsing a formatted time gives the time back. */
  lemma FormatParseRoundTrip(t: nat)
    ensures ParseTime(FormatTime(t)) == Some(t)
  {
    var s := FormatTime(t);
    FormatTimeFields(t);
    assert DecimalValue(s[..|s| - 3]) * 60 + DecimalValue(s[|s| - 2..]) == t;
  }

  /** Distinct whole-second times get distinct labels. */
  lemma FormatTimeInjective(a: nat, b: nat)
    requires FormatTime(a) == FormatTime(b)
    ensures a == b
  {
    FormatParseRoundTrip(a);
    FormatParseRoundTrip(b);
  }

  /** Examples: the start of the track and one full minute. */
  lemma FormatTimeExamples()
    ensures FormatTime(0) == "0:00"
    ensures FormatTime(60) == "1:00"
    ensures FormatTime(75) == "1:15"
  {
    assert Decimal(15) == Decimal(1) + [DigitChar(5)];
  }

  // ---------------------------------------------------------------------------
  // Slider arithmetic

  /** The seek target of `handleProgressChange`: `(value / 100) * duration`. */
  function SeekTime(value: real, duration: real): (t: real)
    ensures 0.0 <= value <= 100.0 && 0.0 <= duration ==> 0.0 <= t <= duration
  {
    assert 0.0 <= value <= 100.0 && 0.0 <= duration ==> (value / 100.0) * duration <= 1.0 * duration;
    (value / 100.0) * duration
  }

  /** The progress of `updateProgress`: `(currentTime / duration) * 100`. */
  function ProgressOf(currentTime: real, duration: real): (p: real)
    requires duration != 0.0
    ensures 0.0 <= currentTime <= duration ==> 0.0 <= p <= 100.0
  {
    assert 0.0 <= currentTime <= duration ==> currentTime / duration <= 1.0;
    (currentTime / duration) * 100.0
  }

  /** Seeking to a slider position and reading the progress back gives that position. */
  lemma SeekThenProgress(value: real, duration: real)
    requires duration != 0.0
    ensures ProgressOf(SeekTime(value, duration), duration) == value
  {
    var t := SeekTime(value, duration);
    assert t / duration == value / 100.0;
  }

  /** The volume of `handleVolumeChange`: `value / 100`, not clamped. */
  function VolumeOf(value: real): (v: real)
    ensures 0.0 <= v <= 1.0 <==> 0.0 <= value <= 100.0
    ensures v * 100.0 == value
  {
    value / 100.0
  }

  // ---------------------------------------------------------------------------
  // Which view the card renders

  datatype View = Loading | Nothing | Player

  /** While generating the loading card is shown whatever the URL; otherwise nothing without
      a URL, and the player with one. */
  function ViewFor(isGenerating: bool, audioUrl: Option<Url>): (v: View)
    ensures isGenerating ==> v == Loading
    ensures v == Player <==> !isGenerating && audioUrl.Some?
    ensures v == Nothing <==> !isGenerating && audioUrl.None?
  {
    if isGenerating then Loading
    else if audioUrl.None? then Nothing
    else Player
  }

  // ---------------------------------------------------------------------------
  // The media element and the player

  /** The attributes of the `<audio>` element the player touches. `paused` is what `play()`
      clears and `pause()` sets. */
  class AudioElement {
    var currentTime: real
    var duration: real
    var volume: real
    var paused: bool

    constructor (duration: real)
      ensures this.duration == duration && currentTime == 0.0 && volume == 1.0 && paused
    {
      this.duration := duration;
      currentTime := 0.0;
      volume := 1.0;
      paused := true;
    }

    method Play()
      modifies this`paused
      ensures !paused
    {
      paused := false;
    }

    method Pause()
      modifies this`paused
      ensures paused
    {
      paused := true;
    }
  }

  /**
   * The player's React state (`isPlaying`, `progress`, `duration`, `volume`) and its
   * `audioRef`, which is null until the `<audio>` element is mounted.
   */
  class AudioPlayer {
    var isPlaying: bool
    var progress: real
    var duration: real
    var volume: real
    var audio: AudioElement?

    /** The initial state: not playing, progress 0, duration 0, full volume, no element yet. */
    constructor ()
      ensures !isPlaying && progress == 0.0 && duration == 0.0 && volume == 1.0 && audio == null
    {
      isPlaying := false;
      progress := 0.0;
      duration := 0.0;
      volume := 1.0;
      audio := null;
    }

    /** React assigns `audioRef.current` when the player view mounts or unmounts the element. */
    method SetRef(element: AudioElement?)
      modifies this`audio
      ensures audio == element
    {
      audio := element;
    }

    /** `togglePlayPause`: without an element nothing happens; otherwise the element is paused
        if the player was playing and played if not, and `isPlaying` flips. */
    method TogglePlayPause()
      modifies this`isPlaying, audio
      ensures audio == null ==> isPlaying == old(isPlaying)
      ensures audio != null ==> isPlaying == !old(isPlaying) && audio.paused == old(isPlaying)
      ensures audio != null ==>
        audio.currentTime == old(audio.currentTime) && audio.volume == old(audio.volume) &&
        audio.duration == old(audio.duration)
    {
      if audio == null {
        return;
      }
      if isPlaying {
        audio.Pause();
      } else {
        audio.Play();
      }
      isPlaying := !isPlaying;
    }

    /** The "ended" listener: playback is over, whatever the flag said before. */
    method OnEnded()
      modifies this`isPlaying
      ensures !isPlaying
    {
      isPlaying := false;
    }

    /** The "timeupdate" listener of the mounted element: while the element's duration is 0
        nothing changes; otherwise the progress becomes the played percentage. */
    method UpdateProgress()
      requires audio != null
      modifies this`progress
      ensures audio.duration == 0.0 ==> progress == old(progress)
      ensures audio.duration != 0.0 ==> progress == ProgressOf(audio.currentTime, audio.duration)
      ensures audio.duration > 0.0 && 0.0 <= audio.currentTime <= audio.duration ==> 0.0 <= progress <= 100.0
    {
      if audio.duration != 0.0 {
        progress := ProgressOf(audio.currentTime, audio.duration);
      }
    }

    /** The "loadedmetadata" listener: the state's duration takes the element's. */
    method UpdateDuration()
      requires audio != null
      modifies this`duration
      ensures duration == audio.duration
    {
      duration := audio.duration;
    }

    /** `handleProgressChange`: a no-op without an element or while the duration is 0;
        otherwise the element seeks to the slider's share of the duration and the progress
        takes the slider value. */
    method HandleProgressChange(value: real)
      modifies this`progress, audio
      ensures audio == null || duration == 0.0 ==> progress == old(progress)
      ensures audio != null && duration == 0.0 ==> audio.currentTime == old(audio.currentTime)
      ensures audio != null && duration != 0.0 ==>
        audio.currentTime == SeekTime(value, duration) && progress == value
      ensures audio != null && duration != 0.0 && 0.0 <= value <= 100.0 && 0.0 <= duration ==>
        0.0 <= audio.currentTime <= duration
      ensures audio != null ==>
        audio.duration == old(audio.duration) && audio.volume == old(audio.volume) && audio.paused == old(audio.paused)
    {
      if audio == null || duration == 0.0 {
        return;
      }
      var newTime := SeekTime(value, duration);
      audio.currentTime := newTime;
      progress := value;
    }

    /** `handleVolumeChange`: without an element nothing happens; otherwise element and state
        both take `value / 100`, unclamped. Playing, progress and duration are untouched. */
    method HandleVolumeChange(value: real)
      modifies this`volume, audio
      ensures audio == null ==> volume == old(volume)
      ensures audio != null ==>
        audio.currentTime == old(audio.currentTime) && audio.duration == old(audio.duration) &&
        audio.paused == old(audio.paused)
      ensures audio != null ==> volume == VolumeOf(value) && audio.volume == volume
      ensures audio != null && 0.0 <= value <= 100.0 ==> 0.0 <= volume <= 1.0
    {
      if audio == null {
        return;
      }
      var newVolume := VolumeOf(value);
      audio.volume := newVolume;
      volume := newVolume;
    }
  }
}
