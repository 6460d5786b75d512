/** The per-medium cue sheets: for each medium, its TITLE line, the release
    header, then one TRACK block per track whose INDEX is the running sum of
    the lengths of the tracks before it on that medium. */
module Cuesheet {
  import opened Decimal
  import opened Metadata
  import opened Timecode
  import opened Header

  /** What makes the program abort: a track whose length is unknown. */
  datatype BuildError = MissingLength(track: nat)

  datatype Result<T> = Success(value: T) | Failure(error: BuildError)

  /** One output file: its name and its text. */
  datatype CueFile = CueFile(name: string, text: string)

  /*** Medium identifier and title line ***/

  /** `format!("{} {:02}", format, position)`, absent parts read as "" and 0. */
  function MediumId(m: Medium): string
  {
    m.format.GetOr("") + " " + Pad2(m.position.GetOr(0))
  }

  /** The identifier is the format, a space, and the position written in at
      least two digits that read back as the position. */
  lemma MediumIdRoundTrip(m: Medium)
    ensures var id, f := MediumId(m), m.format.GetOr("");
      && |id| >= |f| + 3
      && id[..|f|] == f && id[|f|] == ' '
      && AllDigits(id[|f| + 1..])
      && ParseDigits(id[|f| + 1..]) == m.position.GetOr(0)
  {
    var id, f := MediumId(m), m.format.GetOr("");
    assert id[|f| + 1..] == Pad2(m.position.GetOr(0));
    PadZeroRoundTrip(m.position.GetOr(0), 2);
  }

  /** The medium title is shown only when present and not empty. */
  predicate HasSubtitle(m: Medium) { m.title.Some? && m.title.value != "" }

  function DiscSuffix(m: Medium, isAlbum: bool): string
  {
    if isAlbum then "- " + MediumId(m) else ""
  }

  function SubtitleSuffix(m: Medium): string
  {
    if HasSubtitle(m) then ": " + m.title.value else ""
  }

  /** The TITLE line of a medium (without its line break). */
  function TitleText(releaseTitle: string, m: Medium, isAlbum: bool): string
  {
    "TITLE \"" + releaseTitle + DiscSuffix(m, isAlbum) + SubtitleSuffix(m) + "\""
  }

  /** The title line starts with the release title and ends with a quote; the
      disc suffix follows the release title exactly when the release has
      several media; nothing is added exactly when the release has one medium
      and the medium has no title. */
  lemma TitleShape(releaseTitle: string, m: Medium, isAlbum: bool)
    ensures var t, p := TitleText(releaseTitle, m, isAlbum), "TITLE \"" + releaseTitle;
      && |t| > |p| && t[..|p|] == p && t[|t| - 1] == '"'
      && (isAlbum ==> |t| >= |p| + 2 + |MediumId(m)|
                      && t[|p|..|p| + 2 + |MediumId(m)|] == "- " + MediumId(m))
      && (|t| == |p| + 1 <==> !isAlbum && !HasSubtitle(m))
  {
    var t, p := TitleText(releaseTitle, m, isAlbum), "TITLE \"" + releaseTitle;
    var a, b := DiscSuffix(m, isAlbum), SubtitleSuffix(m);
    assert t == p + (a + b + "\"");
    assert t[..|p|] == p;
    if isAlbum {
      assert t[|p|..|p| + |a|] == a;
    }
  }

  /** What follows the release title: a single medium never gets the medium
      id, only its title when it has one; several media without medium titles
      get exactly `- <medium id>`; a medium title, when shown, comes last,
      after ": ". */
  lemma TitleSuffixes(releaseTitle: string, m: Medium, isAlbum: bool)
    ensures var t, p := TitleText(releaseTitle, m, isAlbum), "TITLE \"" + releaseTitle;
      && (!isAlbum ==> t == p + SubtitleSuffix(m) + "\"")
      && (isAlbum && !HasSubtitle(m) ==> t == p + "- " + MediumId(m) + "\"")
      && (HasSubtitle(m) ==> |t| >= |m.title.value| + 3
                             && t[|t| - |m.title.value| - 3..] == ": " + m.title.value + "\"")
  {
    var t, p := TitleText(releaseTitle, m, isAlbum), "TITLE \"" + releaseTitle;
    var a, b := DiscSuffix(m, isAlbum), SubtitleSuffix(m);
    if !isAlbum {
      assert p + a == p;
    }
    if HasSubtitle(m) {
      assert t == (p + a) + (b + "\"");
      assert t[|t| - |b| - 1..] == b + "\"";
    } else {
      assert p + a + b == p + a;
    }
  }

  /** A single-medium release without a medium title gets the bare release title. */
  lemma SingleMediumTitle(releaseTitle: string, m: Medium)
    requires !HasSubtitle(m)
    ensures TitleText(releaseTitle, m, false) == "TITLE \"" + releaseTitle + "\""
  {
    var p := "TITLE \"" + releaseTitle;
    assert p + "" + "" == p;
  }

  /** Builds the title line by appending to a growing string, as the program does. */
  method BuildTitle(releaseTitle: string, m: Medium, mediumId: string, isAlbum: bool)
    returns (title: string)
    requires mediumId == MediumId(m)
    ensures title == TitleText(releaseTitle, m, isAlbum)
  {
    title := "TITLE \"" + releaseTitle;
    if isAlbum {
      title := title + ("- " + mediumId);
    } else {
      assert title + "" == title;
    }
    match m.title {
      case Some(t) =>
        if t != "" {
          title := title + (": " + t);
        } else {
          assert title + "" == title;
        }
      case None =>
        assert title + "" == title;
    }
    title := title + "\"";
  }

  /*** Track blocks ***/

  /** Text with lines appended one by one, each followed by "\n". */
  function AppendLines(text: string, ls: seq<string>): string
  {
    if ls == [] then text else AppendLines(text, ls[..|ls| - 1]) + ls[|ls| - 1] + "\n"
  }

  lemma AppendLinesSnoc(text: string, ls: seq<string>, l: string)
    ensures AppendLines(text, ls + [l]) == AppendLines(text, ls) + l + "\n"
  {
    assert (ls + [l])[..|ls|] == ls;
  }

  /** Appending never changes what was already written. */
  lemma {:induction false} AppendLinesPrefix(text: string, ls: seq<string>)
    ensures |AppendLines(text, ls)| >= |text|
    ensures AppendLines(text, ls)[..|text|] == text
  {
    if ls != [] {
      var front := ls[..|ls| - 1];
      AppendLinesPrefix(text, front);
      var a := AppendLines(text, front);
      assert AppendLines(text, ls) == a + ls[|ls| - 1] + "\n";
      assert (a + ls[|ls| - 1] + "\n")[..|text|] == a[..|text|];
    }
  }

  /** The lines of one TRACK block, its INDEX at the given offset. */
  function TrackLines(t: Track, start: nat): seq<string>
  {
    ["  TRACK " + Pad2(t.position) + " AUDIO",
     "    TITLE \"" + t.title + "\""]
    + (if t.recording.artistCredit.Some?
       then ["    PERFORMER \"" + JoinArtists(t.recording.artistCredit.value) + "\""]
       else [])
    + ["    INDEX 01 " + MillisecondToMmssff(start)]
  }

  /** A line that starts like a track's PERFORMER line. */
  predicate IsPerformerLine(l: string)
  {
    |l| >= 13 && l[..13] == "    PERFORMER"
  }

  /** A block has four lines when the recording has its own artist credit and
      three otherwise; a PERFORMER line is there exactly in the first case, as
      the third line, naming the joined recording credit; the last line is
      always the INDEX at the offset. */
  lemma TrackLinesShape(t: Track, start: nat)
    ensures var ls := TrackLines(t, start);
      && |ls| == (if t.recording.artistCredit.Some? then 4 else 3)
      && ls[0] == "  TRACK " + Pad2(t.position) + " AUDIO"
      && ls[1] == "    TITLE \"" + t.title + "\""
      && ls[|ls| - 1] == "    INDEX 01 " + MillisecondToMmssff(start)
      && (t.recording.artistCredit.Some? <==> exists i :: 0 <= i < |ls| && IsPerformerLine(ls[i]))
      && (t.recording.artistCredit.Some? ==>
            ls[2] == "    PERFORMER \"" + JoinArtists(t.recording.artistCredit.value) + "\"")
  {
    var ls := TrackLines(t, start);
    if t.recording.artistCredit.None? {
      forall i | 0 <= i < |ls| ensures !IsPerformerLine(ls[i]) {
        if i == 0 { assert ls[i][2] == 'T'; }
        else if i == 1 { assert ls[i][4] == 'T'; }
        else { assert ls[i][4] == 'I'; }
      }
    } else {
      var l := ls[2];
      assert l == "    PERFORMER \"" + JoinArtists(t.recording.artistCredit.value) + "\"";
      assert l[..13] == "    PERFORMER";
    }
  }

  predicate LengthsKnown(ts: seq<Track>, n: nat)
  {
    n <= |ts| && forall j :: 0 <= j < n ==> ts[j].length.Some?
  }

  /** `track_start` before track k: the lengths of the tracks before it,
      accumulated one by one. */
  function StartOf(ts: seq<Track>, k: nat): nat
    requires LengthsKnown(ts, k)
  {
    if k == 0 then 0 else StartOf(ts, k - 1) + ts[k - 1].length.value
  }

  /** The total length of a list of tracks, summed from the front. */
  function TotalLength(ts: seq<Track>): nat
    requires LengthsKnown(ts, |ts|)
  {
    if ts == [] then 0 else ts[0].length.value + TotalLength(ts[1..])
  }

  lemma {:induction false} TotalLengthSnoc(ts: seq<Track>)
    requires ts != [] && LengthsKnown(ts, |ts|)
    ensures TotalLength(ts) == TotalLength(ts[..|ts| - 1]) + ts[|ts| - 1].length.value
  {
    if |ts| > 1 {
      assert ts[1..][..|ts| - 2] == ts[..|ts| - 1][1..];
      TotalLengthSnoc(ts[1..]);
    }
  }

  /** The running offset of track k is the total length of the tracks before it. */
  lemma {:induction false} StartIsTotalBefore(ts: seq<Track>, k: nat)
    requires LengthsKnown(ts, k)
    ensures StartOf(ts, k) == TotalLength(ts[..k])
  {
    if k > 0 {
      StartIsTotalBefore(ts, k - 1);
      TotalLengthSnoc(ts[..k]);
      assert ts[..k][..k - 1] == ts[..k - 1];
    }
  }

  /** The lines of the blocks of the first n tracks. */
  function BlockLines(ts: seq<Track>, n: nat): seq<string>
    requires LengthsKnown(ts, n)
  {
    if n == 0 then [] else BlockLines(ts, n - 1) + TrackLines(ts[n - 1], StartOf(ts, n - 1))
  }

  /** Block k of a medium carries the INDEX of the total length of the tracks
      before it; the first block's INDEX is 00:00:00. */
  lemma TrackIndex(ts: seq<Track>, k: nat)
    requires k < |ts| && LengthsKnown(ts, k + 1)
    ensures BlockLines(ts, k + 1) == BlockLines(ts, k) + TrackLines(ts[k], TotalLength(ts[..k]))
    ensures k == 0 ==> TrackLines(ts[k], StartOf(ts, k))[|TrackLines(ts[k], StartOf(ts, k))| - 1]
                       == "    INDEX 01 00:00:00"
  {
    StartIsTotalBefore(ts, k);
    TrackLinesShape(ts[k], StartOf(ts, k));
    ZeroTimecode();
  }

  lemma FirstScenarioBlock()
    ensures TrackLines(Track(1, "A", Recording(None), Some(180000)), 0)
            == ["  TRACK 01 AUDIO", "    TITLE \"A\"", "    INDEX 01 00:00:00"]
  {
    assert Pad2(1) == "01";
    ZeroTimecode();
    assert "  TRACK " + Pad2(1) + " AUDIO" == "  TRACK 01 AUDIO";
    assert "    TITLE \"" + "A" + "\"" == "    TITLE \"A\"";
    assert "    INDEX 01 " + MillisecondToMmssff(0) == "    INDEX 01 00:00:00";
  }

  lemma SecondScenarioBlock()
    ensures TrackLines(Track(2, "B", Recording(None), Some(200000)), 180000)
            == ["  TRACK 02 AUDIO", "    TITLE \"B\"", "    INDEX 01 03:00:00"]
  {
    assert Pad2(2) == "02";
    ThreeMinuteTimecode();
    assert "  TRACK " + Pad2(2) + " AUDIO" == "  TRACK 02 AUDIO";
    assert "    TITLE \"" + "B" + "\"" == "    TITLE \"B\"";
    assert "    INDEX 01 " + MillisecondToMmssff(180000) == "    INDEX 01 03:00:00";
  }

  /** Two tracks of three minutes and of 200 seconds: the first starts at
      00:00:00 and the second at three minutes. */
  lemma TwoTrackBlocks()
    ensures var ts := [Track(1, "A", Recording(None), Some(180000)), Track(2, "B", Recording(None), Some(200000))];
      && LengthsKnown(ts, 2)
      && BlockLines(ts, 2) == ["  TRACK 01 AUDIO", "    TITLE \"A\"", "    INDEX 01 00:00:00",
                               "  TRACK 02 AUDIO", "    TITLE \"B\"", "    INDEX 01 03:00:00"]
  {
    var ts := [Track(1, "A", Recording(None), Some(180000)), Track(2, "B", Recording(None), Some(200000))];
    FirstScenarioBlock();
    SecondScenarioBlock();
    assert BlockLines(ts, 1) == [] + TrackLines(ts[0], 0);
    assert StartOf(ts, 1) == 180000;
    assert BlockLines(ts, 2) == BlockLines(ts, 1) + TrackLines(ts[1], 180000);
  }

  /** The index of the first track with no length, if any. */
  function FirstMissingLength(ts: seq<Track>, from: nat): (k: Option<nat>)
    requires from <= |ts|
    decreases |ts| - from
    ensures k.Some? ==> from <= k.value < |ts| && ts[k.value].length.None?
                        && forall j :: from <= j < k.value ==> ts[j].length.Some?
    ensures k.None? ==> forall j :: from <= j < |ts| ==> ts[j].length.Some?
  {
    if from == |ts| then None
    else if ts[from].length.None? then Some(from)
    else FirstMissingLength(ts, from + 1)
  }

  /** The first track without a length is the one the loop stops at. */
  lemma FirstMissingAt(ts: seq<Track>, i: nat)
    requires LengthsKnown(ts, i) && i < |ts| && ts[i].length.None?
    ensures FirstMissingLength(ts, 0) == Some(i)
  {
  }

  lemma FirstMissingNone(ts: seq<Track>)
    requires LengthsKnown(ts, |ts|)
    ensures FirstMissingLength(ts, 0) == None
  {
  }

  lemma BlocksStep(ts: seq<Track>, i: nat)
    requires LengthsKnown(ts, i) && i < |ts| && ts[i].length.Some?
    ensures LengthsKnown(ts, i + 1)
    ensures BlockLines(ts, i + 1) == BlockLines(ts, i) + TrackLines(ts[i], StartOf(ts, i))
    ensures StartOf(ts, i + 1) == StartOf(ts, i) + ts[i].length.value
  {
  }

  /** The cue sheet of one medium, or the failure the program aborts with. */
  function MediumCuesheet(header: string, releaseTitle: string, m: Medium, isAlbum: bool): Result<CueFile>
  {
    match MediumBody(TitleText(releaseTitle, m, isAlbum) + "\n" + header, TracksOf(m))
    case Failure(e) => Failure(e)
    case Success(text) => Success(CueFile(MediumId(m) + ".cue", text))
  }

  /** The text after the given head: every track's block, or the failure at
      the first track without a length. */
  function MediumBody(head: string, ts: seq<Track>): Result<string>
  {
    match FirstMissingLength(ts, 0)
    case Some(k) => Failure(MissingLength(k))
    case None => Success(AppendLines(head, BlockLines(ts, |ts|)))
  }

  /** Every medium's text is its title line, a line break, the release header
      unchanged, then its track blocks; the file is named after the medium. */
  lemma MediumCuesheetShape(header: string, releaseTitle: string, m: Medium, isAlbum: bool)
    requires MediumCuesheet(header, releaseTitle, m, isAlbum).Success?
    ensures var f := MediumCuesheet(header, releaseTitle, m, isAlbum).value;
            var head := TitleText(releaseTitle, m, isAlbum) + "\n" + header;
      && f.name == MediumId(m) + ".cue"
      && |f.text| >= |head| && f.text[..|head|] == head
  {
    var head := TitleText(releaseTitle, m, isAlbum) + "\n" + header;
    AppendLinesPrefix(head, BlockLines(TracksOf(m), |TracksOf(m)|));
  }

  /** A track without a length makes the medium fail, whichever track it is. */
  lemma MissingLengthFails(header: string, releaseTitle: string, m: Medium, isAlbum: bool, k: nat)
    requires k < |TracksOf(m)| && TracksOf(m)[k].length.None?
    ensures MediumCuesheet(header, releaseTitle, m, isAlbum).Failure?
    ensures MediumCuesheet(header, releaseTitle, m, isAlbum).error.track <= k
  {
  }

  /** `writeln!` into the growing text: the line, then a line break. */
  method AppendLine(text: string, ghost head: string, ghost written: seq<string>, line: string)
    returns (out: string)
    requires text == AppendLines(head, written)
    ensures out == AppendLines(head, written + [line])
  {
    AppendLinesSnoc(head, written, line);
    out := text + line + "\n";
  }

  /** A track's block, line by line. */
  lemma TrackLinesStep(written: seq<string>, t: Track, start: nat)
    ensures var a, b := "  TRACK " + Pad2(t.position) + " AUDIO", "    TITLE \"" + t.title + "\"";
            var x := "    INDEX 01 " + MillisecondToMmssff(start);
            if t.recording.artistCredit.Some?
            then written + TrackLines(t, start)
                 == written + [a] + [b] + ["    PERFORMER \"" + JoinArtists(t.recording.artistCredit.value) + "\""] + [x]
            else written + TrackLines(t, start) == written + [a] + [b] + [x]
  {
  }

  /** Appends one track's lines, as the program writes them. */
  method AppendTrack(text: string, ghost head: string, ghost written: seq<string>, t: Track, trackStart: nat)
    returns (out: string)
    requires text == AppendLines(head, written)
    ensures out == AppendLines(head, written + TrackLines(t, trackStart))
  {
    TrackLinesStep(written, t, trackStart);
    ghost var ls := written + ["  TRACK " + Pad2(t.position) + " AUDIO"];
    out := AppendLine(text, head, written, "  TRACK " + Pad2(t.position) + " AUDIO");
    out := AppendLine(out, head, ls, "    TITLE \"" + t.title + "\"");
    ls := ls + ["    TITLE \"" + t.title + "\""];
    if t.recording.artistCredit.Some? {
      var performer := "    PERFORMER \"" + JoinArtists(t.recording.artistCredit.value) + "\"";
      out := AppendLine(out, head, ls, performer);
      ls := ls + [performer];
    }
    out := AppendLine(out, head, ls, "    INDEX 01 " + MillisecondToMmssff(trackStart));
  }

  /** The state of the track loop after i tracks: their lengths are known,
      `track_start` is their running sum, and the text holds their blocks. */
  ghost predicate Progress(head: string, ts: seq<Track>, i: nat, trackStart: nat, text: string)
  {
    LengthsKnown(ts, i) && trackStart == StartOf(ts, i) && text == AppendLines(head, BlockLines(ts, i))
  }

  /** Appends track i's block at its offset and adds its length. */
  method AppendBlock(text: string, ghost head: string, ts: seq<Track>, i: nat, trackStart: nat)
    returns (out: string, nextStart: nat)
    requires i < |ts| && ts[i].length.Some?
    requires Progress(head, ts, i, trackStart, text)
    ensures Progress(head, ts, i + 1, nextStart, out)
  {
    BlocksStep(ts, i);
    out := AppendTrack(text, head, BlockLines(ts, i), ts[i], trackStart);
    nextStart := trackStart + ts[i].length.value;
  }

  /** Appends every track's block while `track_start` accumulates the
      lengths; a track without a length aborts. */
  method BuildBlocks(head: string, ts: seq<Track>) returns (res: Result<string>)
    ensures res == MediumBody(head, ts)
  {
    var text := head;
    var trackStart := 0;
    var i := 0;
    while i < |ts|
      invariant i <= |ts| && Progress(head, ts, i, trackStart, text)
    {
      if ts[i].length.None? {
        FirstMissingAt(ts, i);
        return Failure(MissingLength(i));
      }
      text, trackStart := AppendBlock(text, head, ts, i, trackStart);
      i := i + 1;
    }
    FirstMissingNone(ts);
    res := Success(text);
  }

  /** Builds one medium's cue sheet as the program does: the title line, the
      release header, then the track blocks; the file is named after the medium. */
  method BuildMedium(header: string, releaseTitle: string, m: Medium, isAlbum: bool)
    returns (res: Result<CueFile>)
    ensures res == MediumCuesheet(header, releaseTitle, m, isAlbum)
  {
    var mediumId := MediumId(m);
    var title := BuildTitle(releaseTitle, m, mediumId, isAlbum);
    var body := BuildBlocks(title + "\n" + header, TracksOf(m));
    match body {
      case Failure(e) =>
        res := Failure(e);
      case Success(text) =>
        res := Success(CueFile(mediumId + ".cue", text));
    }
  }

  /*** All media of a release ***/

  /** Where a run stopped: the medium index and the failure. */
  datatype MediumFailure = MediumFailure(medium: nat, error: BuildError)

  /** The files written so far, and the failure that ended the run, if any. */
  datatype Run = Run(files: seq<CueFile>, failure: Option<MediumFailure>)

  /** The outcome of every medium of a release, in order. */
  function Outcomes(header: string, releaseTitle: string, media: seq<Medium>): (rs: seq<Result<CueFile>>)
    ensures |rs| == |media|
    ensures forall i :: 0 <= i < |media| ==> rs[i] == MediumCuesheet(header, releaseTitle, media[i], |media| > 1)
  {
    seq(|media|, i requires 0 <= i < |media| => MediumCuesheet(header, releaseTitle, media[i], |media| > 1))
  }

  /** The run over the first n outcomes: each success is written in turn, and
      the first failure ends the run. */
  function RunUpTo(outcomes: seq<Result<CueFile>>, n: nat): Run
    requires n <= |outcomes|
  {
    if n == 0 then Run([], None)
    else
      var prev := RunUpTo(outcomes, n - 1);
      if prev.failure.Some? then prev
      else match outcomes[n - 1]
        case Success(f) => Run(prev.files + [f], None)
        case Failure(e) => Run(prev.files, Some(MediumFailure(n - 1, e)))
  }

  /** What the whole program writes for a release: nothing when it has no
      media, otherwise the run over all of them with the header built once. */
  function ReleaseRun(r: Release): Run
  {
    match r.media
    case None => Run([], None)
    case Some(media) => RunUpTo(Outcomes(HeaderText(r), r.title, media), |media|)
  }

  /** The run in closed form: if it fails at medium k, the files are exactly
      the outcomes of media 0..k-1 and medium k failed with the reported error;
      otherwise there is one file per medium, in order. */
  lemma {:induction false} RunUpToFiles(outcomes: seq<Result<CueFile>>, n: nat)
    requires n <= |outcomes|
    ensures var run := RunUpTo(outcomes, n);
      && (run.failure.None? ==> |run.files| == n)
      && (run.failure.Some? ==>
            |run.files| == run.failure.value.medium < n
            && outcomes[run.failure.value.medium] == Failure(run.failure.value.error))
      && forall i :: 0 <= i < |run.files| ==> outcomes[i] == Success(run.files[i])
  {
    if n > 0 {
      RunUpToFiles(outcomes, n - 1);
      var prev := RunUpTo(outcomes, n - 1);
      if prev.failure.None? && outcomes[n - 1].Success? {
        var files := prev.files + [outcomes[n - 1].value];
        assert RunUpTo(outcomes, n).files == files;
        forall i | 0 <= i < |files| ensures outcomes[i] == Success(files[i]) {
          if i < n - 1 { assert files[i] == prev.files[i]; }
        }
      }
    }
  }

  lemma RunStep(outcomes: seq<Result<CueFile>>, i: nat, files: seq<CueFile>)
    requires i < |outcomes| && Run(files, None) == RunUpTo(outcomes, i)
    ensures RunUpTo(outcomes, i + 1) == match outcomes[i]
      case Success(f) => Run(files + [f], None)
      case Failure(e) => Run(files, Some(MediumFailure(i, e)))
  {
  }

  /** Once a medium has failed, later media add nothing. */
  lemma {:induction false} RunStopsAtFailure(outcomes: seq<Result<CueFile>>, k: nat, n: nat)
    requires k <= n <= |outcomes|
    requires RunUpTo(outcomes, k).failure.Some?
    ensures RunUpTo(outcomes, n) == RunUpTo(outcomes, k)
  {
    if n > k {
      RunStopsAtFailure(outcomes, k, n - 1);
    }
  }

  /** Every file written is a medium's cue sheet: it holds the same release
      header right after that medium's own title line, whose disc suffix
      appears exactly when the release has more than one medium. */
  lemma SharedHeader(r: Release)
    ensures forall i :: 0 <= i < |ReleaseRun(r).files| ==>
      && r.media.Some? && i < |r.media.value|
      && var media, f := r.media.value, ReleaseRun(r).files[i];
         var head := TitleText(r.title, media[i], |media| > 1) + "\n" + HeaderText(r);
         && f.name == MediumId(media[i]) + ".cue"
         && |f.text| >= |head| && f.text[..|head|] == head
  {
    if r.media.Some? {
      var media := r.media.value;
      RunUpToFiles(Outcomes(HeaderText(r), r.title, media), |media|);
      forall i | 0 <= i < |ReleaseRun(r).files|
        ensures i < |media|
        ensures var f := ReleaseRun(r).files[i];
                var head := TitleText(r.title, media[i], |media| > 1) + "\n" + HeaderText(r);
                && f.name == MediumId(media[i]) + ".cue"
                && |f.text| >= |head| && f.text[..|head|] == head
      {
        MediumCuesheetShape(HeaderText(r), r.title, media[i], |media| > 1);
      }
    } else {
      assert ReleaseRun(r).files == [];
    }
  }

  /** Every medium in order with the given header; a medium that fails ends
      the run, and the files already written stay written. */
  method BuildMediaFiles(header: string, releaseTitle: string, media: seq<Medium>)
    returns (files: seq<CueFile>, failure: Option<MediumFailure>)
    ensures Run(files, failure) == RunUpTo(Outcomes(header, releaseTitle, media), |media|)
  {
    var isAlbum := |media| > 1;
    ghost var outcomes := Outcomes(header, releaseTitle, media);
    files, failure := [], None;
    var i := 0;
    while i < |media|
      invariant 0 <= i <= |media|
      invariant RunUpTo(outcomes, i).failure.None?
      invariant files == RunUpTo(outcomes, i).files
    {
      var res := BuildMedium(header, releaseTitle, media[i], isAlbum);
      RunStep(outcomes, i, files);
      if res.Failure? {
        failure := Some(MediumFailure(i, res.error));
        RunStopsAtFailure(outcomes, i + 1, |media|);
        return;
      }
      files := files + [res.value];
      i := i + 1;
    }
  }

  /** The program: the release header built once, then every medium's file. */
  method BuildCuesheets(r: Release) returns (files: seq<CueFile>, failure: Option<MediumFailure>)
    ensures Run(files, failure) == ReleaseRun(r)
  {
    var header := BuildHeader(r);
    match r.media {
      case None =>
        files, failure := [], None;
      case Some(media) =>
        files, failure := BuildMediaFiles(header, r.title, media);
    }
  }
}
