/** `millisecond_to_mmssff`: a millisecond offset as the `MM:SS:FF` timecode of
    a cue sheet, where FF counts CD frames, 75 to the second (the Red Book,
    IEC 60908). */
module Timecode {
  import opened Decimal
  import opened Metadata

  const FramesPerSecond: nat := 75

  /** The three numbers a timecode carries. */
  datatype Fields = Fields(minutes: nat, seconds: nat, frames: nat)

  /** The frame within the second: (ms mod 1000) divided by the frame length
      1000/75 ms, rounded to the nearest integer, halves upward. Nothing carries
      a result of 75 into the seconds. */
  function Frames(ms: nat): (f: nat)
    ensures 1000 * f <= 75 * (ms % 1000) + 500 < 1000 * f + 1000
    ensures f <= FramesPerSecond
    ensures f == FramesPerSecond <==> ms % 1000 >= 994
  {
    (75 * (ms % 1000) + 500) / 1000
  }

  function Minutes(ms: nat): nat { ms / 60000 }

  function Seconds(ms: nat): nat { (ms / 1000) % 60 }

  /** `{minutes:02}:{seconds:02}:{frames:02}`. */
  function MillisecondToMmssff(ms: nat): string
  {
    Pad2(Minutes(ms)) + ":" + Pad2(Seconds(ms)) + ":" + Pad2(Frames(ms))
  }

  /** Reads `MM:SS:FF` back: three colon-separated digit fields, the first at
      least two wide and the other two exactly two wide. */
  function ParseTimecode(s: string): Option<Fields>
  {
    var parts := Split(s, ':');
    if |parts| == 3 && AllDigits(parts[0]) && AllDigits(parts[1]) && AllDigits(parts[2])
       && |parts[0]| >= 2 && |parts[1]| == 2 && |parts[2]| == 2
    then Some(Fields(ParseDigits(parts[0]), ParseDigits(parts[1]), ParseDigits(parts[2])))
    else None
  }

  lemma NoColon(s: string)
    requires AllDigits(s)
    ensures forall i :: 0 <= i < |s| ==> s[i] != ':'
  {
    forall i | 0 <= i < |s| ensures s[i] != ':' { assert IsDigit(s[i]); }
  }

  /** The timecode is well formed and carries exactly the whole minutes, the
      seconds within the minute and the rounded frame of the offset. */
  lemma TimecodeRoundTrip(ms: nat)
    ensures ParseTimecode(MillisecondToMmssff(ms)) ==
            Some(Fields(ms / 60000, (ms / 1000) % 60, Frames(ms)))
  {
    var m, s, f := Pad2(Minutes(ms)), Pad2(Seconds(ms)), Pad2(Frames(ms));
    NoColon(m);
    NoColon(s);
    NoColon(f);
    assert MillisecondToMmssff(ms) == m + [':'] + (s + [':'] + f);
    SplitAt(m, ':', s + [':'] + f);
    SplitAt(s, ':', f);
    SplitNoSep(f, ':');
    assert Split(MillisecondToMmssff(ms), ':') == [m, s, f];
    PadZeroRoundTrip(Minutes(ms), 2);
    PadZeroRoundTrip(Seconds(ms), 2);
    PadZeroRoundTrip(Frames(ms), 2);
  }

  /** Minutes are not reduced modulo anything: minutes and seconds together
      give back every whole second of the offset. */
  lemma {:induction false} MinutesNotTruncated(ms: nat)
    ensures 60 * Minutes(ms) + Seconds(ms) == ms / 1000
    ensures Seconds(ms) < 60
  {
    var q := ms / 1000;
    assert ms == 1000 * q + ms % 1000;
    assert q == 60 * (q / 60) + q % 60;
    assert ms == 60000 * (q / 60) + (1000 * (q % 60) + ms % 1000);
    assert 0 <= 1000 * (q % 60) + ms % 1000 < 60000;
    DivUnique(ms, 60000, q / 60, 1000 * (q % 60) + ms % 1000);
  }

  lemma DivUnique(n: nat, d: nat, q: nat, r: nat)
    requires 0 < d && r < d && n == d * q + r
    ensures n / d == q
  {
    var q', r' := n / d, n % d;
    assert n == d * q' + r';
    if q' < q {
      MulMonotone(d, q' + 1, q);
    } else if q < q' {
      MulMonotone(d, q + 1, q');
    }
  }

  lemma MulMonotone(d: nat, a: nat, b: nat)
    requires a <= b
    ensures d * a <= d * b
  {
  }

  /** Lexicographic order on timecode fields. */
  predicate FieldsLeq(a: Fields, b: Fields)
  {
    a.minutes < b.minutes ||
    (a.minutes == b.minutes && (a.seconds < b.seconds ||
                                (a.seconds == b.seconds && a.frames <= b.frames)))
  }

  /** A later offset never gets an earlier timecode (even with the uncarried
      frame 75, which still sorts before frame 0 of the next second). */
  lemma TimecodeMonotone(ms1: nat, ms2: nat)
    requires ms1 <= ms2
    ensures FieldsLeq(Fields(Minutes(ms1), Seconds(ms1), Frames(ms1)),
                      Fields(Minutes(ms2), Seconds(ms2), Frames(ms2)))
  {
    MinutesNotTruncated(ms1);
    MinutesNotTruncated(ms2);
    assert ms1 / 1000 <= ms2 / 1000;
    if ms1 / 1000 == ms2 / 1000 {
      assert ms1 % 1000 <= ms2 % 1000;
    }
  }

  lemma ZeroTimecode()
    ensures MillisecondToMmssff(0) == "00:00:00"
  {
    assert Pad2(0) == "00";
  }

  lemma OneMinuteTimecode()
    ensures MillisecondToMmssff(60000) == "01:00:00"
  {
    assert Pad2(0) == "00";
    assert Pad2(1) == "01";
  }

  lemma ThreeMinuteTimecode()
    ensures MillisecondToMmssff(180000) == "03:00:00"
  {
    assert Pad2(0) == "00";
    assert Pad2(3) == "03";
  }

  /** 999 ms rounds up to frame 75 and is written as such. */
  lemma UncarriedFrame()
    ensures MillisecondToMmssff(999) == "00:00:75"
  {
    assert Frames(999) == 75;
    assert NatToString(75) == "75";
    assert Pad2(0) == "00";
  }
}
