/**
 * The guided-meditation player: a fixed list of four tracks, cyclic next and
 * previous navigation, a play/pause toggle driving an `<audio>` element, a seek
 * slider, and the `m:ss` clock shown under the slider.
 */
module MeditationPlayer {
  import opened Common

  /** One entry of the track list. */
  datatype Meditation = Meditation(id: nat, name: string, description: string, src: string)

  /** The track list, in display order. */
  const Meditations: seq<Meditation> := [
    Meditation(1, "Mindful Breathing", "A gentle meditation focusing on breath awareness",
               "https://cdn.pixabay.com/download/audio/2022/03/05/audio_27857a9448.mp3"),
    Meditation(2, "Body Scan Relaxation", "Progressive relaxation for stress relief",
               "https://cdn.pixabay.com/download/audio/2022/01/18/audio_d0c6ff1ebd.mp3"),
    Meditation(3, "Anxiety Relief", "Calming meditation for anxiety and worry",
               "https://cdn.pixabay.com/download/audio/2022/03/09/audio_861be97c6d.mp3"),
    Meditation(4, "Sleep Meditation", "Gentle guidance to help you fall asleep",
               "https://cdn.pixabay.com/download/audio/2022/04/27/audio_c9b7515236.mp3")
  ]

  const TrackCount: nat := |Meditations|

  // ---------------------------------------------------------------------------
  // Track navigation
  // ---------------------------------------------------------------------------

  /** `nextTrack`'s updater: one step forward, the last track wrapping to the first. */
  function NextIndex(i: nat): (j: nat)
    ensures j < TrackCount
    ensures i + 1 < TrackCount ==> j == i + 1
    ensures i + 1 == TrackCount ==> j == 0
  {
    (i + 1) % TrackCount
  }

  /** `prevTrack`'s updater: one step back, the first track wrapping to the last. */
  function PrevIndex(i: nat): (j: nat)
    ensures i < TrackCount ==> j < TrackCount
    ensures 0 < i ==> j + 1 == i
    ensures i == 0 ==> j == TrackCount - 1
  {
    if i == 0 then TrackCount - 1 else i - 1
  }

  /** Going back undoes going forward, for every index on the list. */
  lemma PrevUndoesNext(i: nat)
    requires i < TrackCount
    ensures PrevIndex(NextIndex(i)) == i
  {
    if i + 1 < TrackCount {
      assert NextIndex(i) == i + 1;
    } else {
      assert NextIndex(i) == 0;
    }
  }

  /** Going forward undoes going back, for every index on the list. */
  lemma NextUndoesPrev(i: nat)
    requires i < TrackCount
    ensures NextIndex(PrevIndex(i)) == i
  {
    if i == 0 {
      assert PrevIndex(i) == TrackCount - 1;
    } else {
      assert PrevIndex(i) + 1 == i;
    }
  }

  /** The index reached after `k` forward steps. */
  function Advance(i: nat, k: nat): nat
  {
    if k == 0 then i else NextIndex(Advance(i, k - 1))
  }

  /** `k` forward steps from a listed track land `k` places further, modulo the list length. */
  lemma {:induction false} AdvanceIsModular(i: nat, k: nat)
    requires i < TrackCount
    ensures Advance(i, k) == (i + k) % TrackCount
  {
    if k > 0 {
      AdvanceIsModular(i, k - 1);
      var p := (i + k - 1) % TrackCount;
      assert Advance(i, k) == (p + 1) % TrackCount;
      ModStep(i + k - 1);
    }
  }

  lemma ModStep(n: nat)
    ensures ((n % TrackCount) + 1) % TrackCount == (n + 1) % TrackCount
  {
  }

  /** Four forward steps, one per track, come back to the starting track. */
  lemma FullCycle(i: nat)
    requires i < TrackCount
    ensures Advance(i, TrackCount) == i
  {
    AdvanceIsModular(i, TrackCount);
  }

  // ---------------------------------------------------------------------------
  // The clock
  // ---------------------------------------------------------------------------

  /** `Math.floor` on a real. */
  function Floor(x: real): (f: int)
    ensures f as real <= x < f as real + 1.0
  {
    x.Floor
  }

  /** JavaScript's `%` on numbers: the remainder of a quotient truncated toward zero. */
  function JsRem(a: real, b: real): real
    requires b != 0.0
  {
    var q := a / b;
    var t := if q >= 0.0 then q.Floor else -((-q).Floor);
    a - b * t as real
  }

  /** The character of one decimal digit. */
  function DigitChar(d: nat): (c: char)
    requires d < 10
    ensures '0' <= c <= '9' && (c as int) - ('0' as int) == d
  {
    (('0' as int) + d) as char
  }

  /** Every character of `s` is a decimal digit. */
  predicate AllDigits(s: string)
  {
    forall i :: 0 <= i < |s| ==> '0' <= s[i] <= '9'
  }

  /** Decimal rendering of a whole number, as a template literal renders it. */
  function NatToString(n: nat): (s: string)
    ensures |s| >= 1
    ensures AllDigits(s)
    ensures |s| > 1 ==> s[0] != '0'
    ensures n < 10 <==> |s| == 1
  {
    if n < 10 then [DigitChar(n)] else NatToString(n / 10) + [DigitChar(n % 10)]
  }

  /** Decimal rendering of any integer: a minus sign before a negative magnitude. */
  function IntToString(i: int): (s: string)
    ensures i >= 0 ==> s == NatToString(i)
    ensures i < 0 ==> s == "-" + NatToString(-i)
  {
    if i < 0 then "-" + NatToString(-i) else NatToString(i)
  }

  /** The value of a string of decimal digits, read left to right. */
  function DigitsValue(s: string): nat
    requires AllDigits(s)
  {
    if s == [] then 0
    else DigitsValue(s[..|s| - 1]) * 10 + ((s[|s| - 1] as int) - ('0' as int))
  }

  /** Reading a rendered number back gives the number. */
  lemma {:induction false} DigitsValueOfNatToString(n: nat)
    ensures DigitsValue(NatToString(n)) == n
  {
    var s := NatToString(n);
    if n >= 10 {
      DigitsValueOfNatToString(n / 10);
      assert s[..|s| - 1] == NatToString(n / 10);
    }
  }

  /**
   * `formatTime`: whole minutes, a colon, then the whole seconds within the minute
   * with one leading zero below ten.
   */
  function FormatTime(seconds: real): string
  {
    var mins := Floor(seconds / 60.0);
    var secs := Floor(JsRem(seconds, 60.0));
    IntToString(mins) + ":" + (if secs < 10 then "0" else "") + IntToString(secs)
  }

  /** The seconds field as two digits, written out independently of `formatTime`. */
  function TwoDigits(secs: nat): (s: string)
    requires secs < 60
    ensures |s| == 2 && '0' <= s[0] <= '5' && '0' <= s[1] <= '9'
    ensures AllDigits(s)
    ensures DigitsValue(s) == secs
  {
    var s := [DigitChar(secs / 10), DigitChar(secs % 10)];
    assert s[..1] == [DigitChar(secs / 10)];
    assert s[..1][..0] == [];
    assert DigitsValue(s[..1]) == secs / 10;
    s
  }

  /**
   * For a non-negative time, the minutes are the whole seconds divided by sixty
   * and the seconds the whole seconds modulo sixty.
   */
  lemma ClockParts(seconds: real)
    requires seconds >= 0.0
    ensures Floor(seconds / 60.0) == Floor(seconds) / 60
    ensures Floor(JsRem(seconds, 60.0)) == Floor(seconds) % 60
  {
    var f := Floor(seconds);
    var q := f / 60;
    assert 60 * q <= f < 60 * q + 60;
    assert (60 * q) as real <= seconds < (60 * q + 60) as real;
    assert q as real <= seconds / 60.0 < q as real + 1.0;
    assert Floor(seconds / 60.0) == q;
    assert JsRem(seconds, 60.0) == seconds - 60.0 * q as real;
    assert f as real - 60.0 * q as real <= seconds - 60.0 * q as real < f as real - 60.0 * q as real + 1.0;
  }

  /**
   * The displayed clock of a non-negative time: the rendered minutes, a colon and
   * a two-digit seconds field (`0:05`, `12:30`); it depends only on the whole
   * seconds.
   */
  lemma FormatTimeLayout(seconds: real)
    requires seconds >= 0.0
    ensures FormatTime(seconds) == NatToString(Floor(seconds) / 60) + ":" + TwoDigits(Floor(seconds) % 60)
    ensures FormatTime(seconds) == FormatTime(Floor(seconds) as real)
  {
    ClockParts(seconds);
    ClockParts(Floor(seconds) as real);
    var secs := Floor(seconds) % 60;
    if secs < 10 {
      assert IntToString(secs) == [DigitChar(secs)];
      assert "0" + IntToString(secs) == TwoDigits(secs);
    } else {
      assert IntToString(secs) == NatToString(secs / 10) + [DigitChar(secs % 10)];
      assert NatToString(secs / 10) == [DigitChar(secs / 10)];
    }
  }

  /**
   * Reading a displayed clock back into whole seconds: digits, a colon, and two
   * digits; anything else is not a clock.
   */
  function ReadClock(t: string): (r: Option<int>)
    ensures r.Some? ==> r.value >= 0
  {
    if |t| >= 4 && t[|t| - 3] == ':' && AllDigits(t[..|t| - 3]) && AllDigits(t[|t| - 2..]) then
      Some(DigitsValue(t[..|t| - 3]) * 60 + DigitsValue(t[|t| - 2..]))
    else
      None
  }

  /** A field of digits, a colon and two digits read back field by field. */
  lemma ReadClockSplit(m: string, d: string)
    requires |m| >= 1 && AllDigits(m)
    requires |d| == 2 && AllDigits(d)
    ensures ReadClock(m + ":" + d) == Some(DigitsValue(m) * 60 + DigitsValue(d))
  {
    var t := m + ":" + d;
    var a, b := t[..|t| - 3], t[|t| - 2..];
    assert a == m;
    assert b == d;
    assert t[|t| - 3] == ':';
    assert AllDigits(a) && AllDigits(b);
    assert DigitsValue(a) == DigitsValue(m) && DigitsValue(b) == DigitsValue(d);
  }

  /** A clock built from the minutes and seconds of `n` reads back as `n`. */
  lemma ReadClockOfFields(n: nat)
    ensures ReadClock(NatToString(n / 60) + ":" + TwoDigits(n % 60)) == Some(n)
  {
    var q, r := n / 60, n % 60;
    assert q * 60 + r == n;
    var m, d := NatToString(q), TwoDigits(r);
    DigitsValueOfNatToString(q);
    assert DigitsValue(m) == q && DigitsValue(d) == r;
    ReadClockSplit(m, d);
    assert ReadClock(m + ":" + d) == Some(q * 60 + r);
  }

  /** The displayed clock of a non-negative time reads back as its whole seconds. */
  lemma FormatTimeReadsBack(seconds: real)
    requires seconds >= 0.0
    ensures ReadClock(FormatTime(seconds)) == Some(Floor(seconds))
  {
    FormatTimeLayout(seconds);
    ReadClockOfFields(Floor(seconds));
  }

  // ---------------------------------------------------------------------------
  // The player component
  // ---------------------------------------------------------------------------

  /** A call the component makes on its `<audio>` element. */
  datatype ElementCall = Play | Pause | Load | SetSource(src: string) | Seek(position: real)

  /**
   * The effect that runs after the track index changed: the element gets the new
   * track's source and reloads, and resumes playing if the player was playing.
   */
  function TrackChangeCalls(index: nat, isPlaying: bool): (calls: seq<ElementCall>)
    requires index < TrackCount
    ensures |calls| >= 2 && calls[0] == SetSource(Meditations[index].src) && calls[1] == Load
    ensures Play in calls <==> isPlaying
  {
    [SetSource(Meditations[index].src), Load] + (if isPlaying then [Play] else [])
  }

  /** `duration || 100`: the slider's upper end, 100 until a duration is known. */
  function SliderMax(duration: real): (m: real)
    ensures duration != 0.0 ==> m == duration
    ensures duration == 0.0 ==> m == 100.0
  {
    if duration == 0.0 then 100.0 else duration
  }

  class Player {
    var isPlaying: bool
    var currentTime: real
    var duration: real
    var currentTrackIndex: nat
    /** Every call made on the audio element, in order. */
    var calls: seq<ElementCall>

    /** The current index always names a track on the list. */
    predicate Valid()
      reads this`currentTrackIndex
    {
      currentTrackIndex < TrackCount
    }

    /**
     * The first track, paused, at time zero with no duration known; the
     * track-change effect runs once on mount and loads the first track.
     */
    constructor ()
      ensures Valid()
      ensures !isPlaying && currentTime == 0.0 && duration == 0.0 && currentTrackIndex == 0
      ensures calls == [SetSource(Meditations[0].src), Load]
    {
      isPlaying := false;
      currentTime := 0.0;
      duration := 0.0;
      currentTrackIndex := 0;
      calls := TrackChangeCalls(0, false);
    }

    /** The track the component shows and the element plays. */
    function CurrentMeditation(): (m: Meditation)
      requires Valid()
      reads this`currentTrackIndex
      ensures m in Meditations
    {
      Meditations[currentTrackIndex]
    }

    /** `togglePlayPause`: pause when playing, play otherwise, then flip the flag. */
    method TogglePlayPause()
      modifies this`isPlaying, this`calls
      ensures isPlaying == !old(isPlaying)
      ensures old(isPlaying) ==> calls == old(calls) + [Pause]
      ensures !old(isPlaying) ==> calls == old(calls) + [Play]
    {
      if isPlaying {
        calls := calls + [Pause];
      } else {
        calls := calls + [Play];
      }
      isPlaying := !isPlaying;
    }

    /** `handleTimeUpdate`: the displayed time follows the element's position. */
    method OnTimeUpdate(position: real)
      modifies this`currentTime
      ensures currentTime == position
    {
      currentTime := position;
    }

    /** `handleLoadedMetadata`: the element's duration becomes known. */
    method OnLoadedMetadata(elementDuration: real)
      modifies this`duration
      ensures duration == elementDuration
    {
      duration := elementDuration;
    }

    /**
     * `handleSliderChange`: the element seeks to the slider's first value and the
     * displayed time follows. With no value the seek throws and nothing changes.
     */
    method HandleSliderChange(value: seq<real>)
      modifies this`currentTime, this`calls
      ensures |value| > 0 ==> calls == old(calls) + [Seek(value[0])] && currentTime == value[0]
      ensures |value| == 0 ==> calls == old(calls) && currentTime == old(currentTime)
    {
      if |value| > 0 {
        calls := calls + [Seek(value[0])];
        currentTime := value[0];
      }
    }

    /** A new track index, followed by the track-change effect when the index moved. */
    method SetTrack(index: nat)
      requires Valid() && index < TrackCount
      modifies this`currentTrackIndex, this`calls
      ensures Valid() && currentTrackIndex == index
      ensures index != old(currentTrackIndex) ==> calls == old(calls) + TrackChangeCalls(index, isPlaying)
      ensures index == old(currentTrackIndex) ==> calls == old(calls)
    {
      if index != currentTrackIndex {
        currentTrackIndex := index;
        calls := calls + TrackChangeCalls(index, isPlaying);
      }
    }

    /** `nextTrack`: the following track, the last wrapping to the first. */
    method NextTrack()
      requires Valid()
      modifies this`currentTrackIndex, this`calls
      ensures Valid() && currentTrackIndex == NextIndex(old(currentTrackIndex))
      ensures calls == old(calls) + TrackChangeCalls(currentTrackIndex, isPlaying)
    {
      SetTrack(NextIndex(currentTrackIndex));
    }

    /** `prevTrack`: the preceding track, the first wrapping to the last. */
    method PrevTrack()
      requires Valid()
      modifies this`currentTrackIndex, this`calls
      ensures Valid() && currentTrackIndex == PrevIndex(old(currentTrackIndex))
      ensures calls == old(calls) + TrackChangeCalls(currentTrackIndex, isPlaying)
    {
      SetTrack(PrevIndex(currentTrackIndex));
    }

    /** A click on a track in the list. */
    method SelectTrack(index: nat)
      requires Valid() && index < TrackCount
      modifies this`currentTrackIndex, this`calls
      ensures Valid() && currentTrackIndex == index
      ensures index != old(currentTrackIndex) ==> calls == old(calls) + TrackChangeCalls(index, isPlaying)
      ensures index == old(currentTrackIndex) ==> calls == old(calls)
    {
      SetTrack(index);
    }

    /**
     * The element's `ended` event advances to the next track; a player that was
     * playing starts the next track, since its flag is still up.
     */
    method OnEnded()
      requires Valid()
      modifies this`currentTrackIndex, this`calls
      ensures Valid() && currentTrackIndex == NextIndex(old(currentTrackIndex))
      ensures calls == old(calls) + TrackChangeCalls(currentTrackIndex, isPlaying)
      ensures isPlaying ==> calls[|calls| - 1] == Play
    {
      NextTrack();
    }
  }

  /** Two toggles leave the flag where it was and make one pause and one play call. */
  method ToggleTwice(p: Player)
    modifies p
    ensures p.isPlaying == old(p.isPlaying)
    ensures old(p.isPlaying) ==> p.calls == old(p.calls) + [Pause, Play]
    ensures !old(p.isPlaying) ==> p.calls == old(p.calls) + [Play, Pause]
    ensures p.currentTime == old(p.currentTime) && p.duration == old(p.duration)
    ensures p.currentTrackIndex == old(p.currentTrackIndex)
  {
    p.TogglePlayPause();
    p.TogglePlayPause();
  }

  /** Next then previous comes back to the same track, reloading it. */
  method NextThenPrev(p: Player)
    requires p.Valid()
    modifies p
    ensures p.Valid() && p.currentTrackIndex == old(p.currentTrackIndex)
    ensures p.calls == old(p.calls) + TrackChangeCalls(NextIndex(old(p.currentTrackIndex)), p.isPlaying)
                                    + TrackChangeCalls(old(p.currentTrackIndex), p.isPlaying)
    ensures p.isPlaying == old(p.isPlaying)
    ensures p.currentTime == old(p.currentTime) && p.duration == old(p.duration)
  {
    p.NextTrack();
    p.PrevTrack();
    PrevUndoesNext(old(p.currentTrackIndex));
  }
}
