# musicbrainz-cuesheet, modelled in Dafny

`musicbrainz-cuesheet` turns a MusicBrainz release into one CUE sheet per
medium (disc). This project models the part of `src/main.rs` that does so once
the release record has been fetched:

- `millisecond_to_mmssff`: a millisecond offset as `MM:SS:FF`, where FF counts
  CD frames at 75 per second (the Red Book, IEC 60908).
- `join_artists`: an artist credit as plain concatenation of names and join
  phrases.
- The assembly inside `main`:
  - the release header is written once with `writeln!`: PERFORMER, REM GENRE, REM DATE, one REM COMMENT per label, REM MUSICBRAINZ_ALBUM_ID, FILE;
  - then, for every medium, the TITLE line is built with `+=`;
  - the medium's text is that line followed by the header;
  - then come the TRACK blocks, whose INDEX is the running sum `track_start` of the earlier track lengths;
  - the file is named `<medium id>.cue`.

Modules:

- `Metadata` (`metadata.dfy`): the release record, reduced to the fields the program reads. Every field the catalog may omit is an `Option`.
- `Decimal` (`decimal.dfy`): `format!`'s `{}` and `{:0N}` for integers. It also has a digit parser and a split on a character, used to state what a rendering contains.
- `Timecode` (`timecode.dfy`): `millisecond_to_mmssff`.
- `Header` (`header.dfy`):
  - `join_artists`;
  - the header as typed lines (`HeaderLine`) and their rendering;
  - the method `BuildHeader`, which writes the header line by line, proved equal to `HeaderText`.
- `Cuesheet` (`cuesheet.dfy`):
  - the medium id, the title line, the track blocks and the running offset;
  - the methods `BuildTitle`, `BuildBlocks`, `BuildMedium` and `BuildCuesheets`, which mirror the program's loops and string appends;
  - each method is proved equal to a specification function (`TitleText`, `MediumBody`, `MediumCuesheet`, `ReleaseRun`);
  - lemmas about those functions.

The program's output is modelled as a `Run`: the `(name, text)` files written, in order, and the failure that ended the run, if any.

### Behaviour kept as the code has it

These follow `src/main.rs`, even where a cleaner cue sheet or a description of the tool would differ:

- A frame count that rounds to 75 is written as `75`: nothing carries it into the seconds. For example, 999 ms gives `00:00:75` (`Timecode.UncarriedFrame`).
- The TITLE line comes first, then the release header (src/main.rs:128).
- A release group with an empty genre list still writes `REM GENRE ` (`Header.EmptyGenreLine`).
- Labels are not de-duplicated. Every entry with a non-empty label name writes its own REM COMMENT (`Header.LabelsNotDeduplicated`).
- A track PERFORMER line is written whenever the recording's credit list is present, even when that list is empty.
- A missing length on any track, the last included, aborts the program.

## Model

| member | source | states |
|---|---|---|
| Decimal.Pad2 | src/main.rs:44 | `{:02}` writes only digits, at least two of them, and exactly two exactly when the number is below 100: larger numbers are never cut short |
| Decimal.PadZeroRoundTrip | src/main.rs:44 | a zero-padded field reads back as the number it renders |
| Decimal.IntToString | src/main.rs:92 | a year's `to_string` reads back as the year: a non-negative year is its digits, a negative one a minus sign and the digits of its magnitude, with no leading zero in either |
| Timecode.Frames | src/main.rs:37-40 | the frame is (ms mod 1000)·75/1000 rounded to the nearest integer; it lies in 0..75 and is 75 exactly when ms mod 1000 ≥ 994 |
| Timecode.TimecodeRoundTrip | src/main.rs:39-44 | the timecode is three colon-separated digit fields (the first at least two wide, the others exactly two) that read back as ms/60000, (ms/1000) mod 60 and the rounded frame |
| Timecode.MinutesNotTruncated | src/main.rs:41-42 | 60·minutes + seconds is the number of whole seconds of the offset, and seconds < 60 |
| Timecode.TimecodeMonotone | src/main.rs:39-44 | a later offset never gets a lexicographically earlier (minutes, seconds, frames) |
| Timecode.ZeroTimecode | src/main.rs:39-44 | offset 0 is `00:00:00` |
| Timecode.OneMinuteTimecode | src/main.rs:39-44 | offset 60000 is `01:00:00` |
| Timecode.ThreeMinuteTimecode | src/main.rs:39-44 | offset 180000 is `03:00:00` |
| Timecode.UncarriedFrame | src/main.rs:39-40 | offset 999 is `00:00:75`: the rounded frame 75 is not carried |
| Header.JoinArtistsAppend | src/main.rs:27-32 | the text of a concatenated credit list is the texts of its parts concatenated, with nothing between them |
| Header.JoinArtistsAt | src/main.rs:27-32 | entry k's name and join phrase sit exactly between the text of the entries before it and the text of those after it |
| Header.GenreLineSnoc | src/main.rs:82 | one more genre extends the REM GENRE line by `"; "` and its name, or by its name alone when it is the first |
| Header.JoinWithSnoc | src/main.rs:82 | joining with `"; "` puts the separator between consecutive names only, and an empty list joins to "" |
| Header.DateYearOnlyIff | src/main.rs:85-98 | REM DATE carries the bare year if and only if the date is January 1 (`ordinal() == 1`); otherwise it carries the full date |
| Header.LabelCommentsAppend | src/main.rs:101-107 | the comments of a list of label entries are the comments of its parts in order |
| Header.LabelCommentsAreComments | src/main.rs:101-107 | the label loop writes only REM COMMENT lines, each with a non-empty name |
| Header.LabelCommentsMembership | src/main.rs:101-107 | a REM COMMENT for name n is written if and only if n is non-empty and some entry has a label named n |
| Header.LabelsNotDeduplicated | src/main.rs:101-107 | two entries of the same label write two identical comments |
| Header.HeaderOrder | src/main.rs:76-110 | header lines always come in the order PERFORMER, REM GENRE, REM DATE, REM COMMENT…, REM MUSICBRAINZ_ALBUM_ID, FILE; only comments repeat |
| Header.HeaderPresence | src/main.rs:76-110 | PERFORMER, as the first line, if and only if the release has credits; REM GENRE if and only if a release group with genres; REM DATE if and only if a release group with a date; the last two lines are always the album id and FILE |
| Header.EmptyGenreLine | src/main.rs:81-82 | an empty genre list still writes `REM GENRE ` |
| Header.HeaderTextEnds | src/main.rs:109-110 | the header text always ends with `REM MUSICBRAINZ_ALBUM_ID <id>` and `FILE "CDImage.flac" WAVE`, each on its own line |
| Header.WriteLine | src/main.rs:77 | one `writeln!` into the header appends the line's rendering and a line break after the lines already written; all six header lines are written through it |
| Header.AppendReleaseGroup | src/main.rs:80-99 | the release-group block appends the genre line and then the date line, each only when present |
| Header.AppendLabelComment | src/main.rs:102-105 | one label entry appends its REM COMMENT exactly when it has a label with a non-empty name |
| Header.AppendLabelComments | src/main.rs:101-107 | the label loop appends the comments of all entries in input order |
| Header.BuildHeader | src/main.rs:73-110 | the header built line by line is exactly the rendering of the typed header lines, whose order and presence the lemmas above state |
| Cuesheet.MediumIdRoundTrip | src/main.rs:115 | the medium id is the format (or ""), a space, and at least two digits that read back as the position (or 0) |
| Cuesheet.TitleShape | src/main.rs:117-126 | the TITLE line starts with `TITLE "` and the release title and ends with a quote; `- <medium id>` follows the title when the release has several media; nothing is added if and only if there is one medium and no medium title |
| Cuesheet.TitleSuffixes | src/main.rs:117-126 | a single medium never gets `- <medium id>`, only `: <medium title>` when it has a non-empty one; several media without medium titles get exactly `- <medium id>`; a shown medium title always comes last, after `: ` |
| Cuesheet.SingleMediumTitle | src/main.rs:113-126 | a single-medium release without a medium title gets exactly `TITLE "<release title>"` |
| Cuesheet.BuildTitle | src/main.rs:117-126 | the title built with `+=` equals the title line described above |
| Cuesheet.AppendLinesPrefix | src/main.rs:128-140 | appending lines never changes the text already written, so every medium's text keeps its title and header at the front |
| Cuesheet.TrackLinesShape | src/main.rs:132-140 | a track block is `  TRACK NN AUDIO` and `    TITLE "…"`, then the PERFORMER line with the joined recording credit if and only if the recording has credits, then `    INDEX 01 <offset>` |
| Cuesheet.StartIsTotalBefore | src/main.rs:130-141 | `track_start` before track k is the total length of the tracks before it on the same medium |
| Cuesheet.TrackIndex | src/main.rs:130-141 | block k carries the INDEX of the total length of the earlier tracks of its medium; the first block's INDEX is `00:00:00` |
| Cuesheet.TwoTrackBlocks | src/main.rs:130-141 | tracks of 180000 ms and 200000 ms get INDEX `00:00:00` and `03:00:00` |
| Cuesheet.FirstMissingLength | src/main.rs:139 | the index of the first track without a length, or none when every track has one |
| Cuesheet.MissingLengthFails | src/main.rs:139 | a track without a length, wherever it sits, makes the medium fail |
| Cuesheet.MediumCuesheetShape | src/main.rs:128-144 | a medium's text starts with its title line, a line break and the release header unchanged; its file is `<medium id>.cue` |
| Cuesheet.AppendLine | src/main.rs:132 | one `writeln!` appends the line and a line break |
| Cuesheet.AppendTrack | src/main.rs:132-140 | the lines written for one track are its block |
| Cuesheet.AppendBlock | src/main.rs:132-141 | one iteration appends track i's block at offset `track_start` and adds its length |
| Cuesheet.BuildBlocks | src/main.rs:130-142 | the track loop writes every block at its running offset, or fails at the first track without a length |
| Cuesheet.BuildMedium | src/main.rs:115-144 | the medium's file: the title, the header, then the blocks, named after the medium id |
| Cuesheet.RunUpToFiles | src/main.rs:112-146 | when the run fails at medium k, exactly the files of media 0..k-1 are written and medium k failed; otherwise there is one file per medium; file i is always medium i's cue sheet |
| Cuesheet.RunStopsAtFailure | src/main.rs:112-146 | once a medium fails, later media write nothing |
| Cuesheet.SharedHeader | src/main.rs:112-146 | every file written holds the same release header right after its own title line, and is named after its medium |
| Cuesheet.BuildMediaFiles | src/main.rs:112-146 | the media loop writes each medium's file in order and stops at the first failure |
| Cuesheet.BuildCuesheets | src/main.rs:73-146 | the program writes the header once and then the files of the run described above; a release without media writes nothing |

## Left out

- Fetching the release from MusicBrainz (src/main.rs:64-72) is a network call into a library. The model takes the fetched record as input.
- Cover art (src/main.rs:47-56, 149-169) is left out: HTTP downloads, file writes and a one-second sleep.
- Directory creation and file writes (src/main.rs:60, 145) are left out. The model returns each file as a (name, text) pair, in the order the program writes them. Media with the same id get the same file name (two media with no format and no position are both ` 00.cue`), so the later write replaces the earlier file; `Run.files` lists both writes and is not the final content of the output directory.
- Command-line parsing (src/main.rs:15-25, 59) and `set_user_agent` (src/main.rs:62) are configuration.
- Timecode.Frames: the program divides an `f64` by the `f64` nearest to 1000/75 and rounds. The model computes (75·(ms mod 1000) + 500) div 1000 instead, which rounds halves up. The two can only differ at exact halves (ms mod 1000 ≡ 20 mod 40), where the result depends on how the `f64` quotient rounds.
- Cuesheet.StartOf: `track_start` and the lengths are `u32` in the program. The model uses unbounded naturals, so an overflow is not modelled: a panic in debug builds, wrap-around in release builds.
- Dates: chrono's `NaiveDate` is modelled as (year, month, day), without a validity check. `ordinal() == 1` is modelled as month 1, day 1. `to_string` is modelled as `YYYY-MM-DD`, with a sign and at least four digits for years outside 0..9999.
- Cuesheet.BuildBlocks: the program unwraps a missing length only after it has written that track's TRACK, TITLE and PERFORMER lines into the in-memory text. The model fails before writing them.
  - Those lines are lost with the panic either way.
  - The observable outcome is the same: earlier media's files are written and this medium's is not.
  - The panic message is not modelled; the failure carries the index of the track.
- Names, titles and ids are written verbatim. Neither the program nor the model escapes quotes inside them.
