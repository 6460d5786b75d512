/** The release header of a cue sheet: the lines written once per release
    (performer, genre, date, label comments, catalog id, audio file) and
    repeated verbatim in every medium's cue sheet. */
module Header {
  import opened Decimal
  import opened Metadata

  /*** Artist credits ***/

  /** One credit entry as written: the name, then its join phrase (none reads as ""). */
  function CreditText(c: ArtistCredit): string
  {
    c.name + c.joinPhrase.GetOr("")
  }

  /** `join_artists`: every entry in order, nothing inserted between them. */
  function JoinArtists(credits: seq<ArtistCredit>): string
  {
    if credits == [] then "" else CreditText(credits[0]) + JoinArtists(credits[1..])
  }

  /** Joining distributes over concatenation of credit lists. */
  lemma {:induction false} JoinArtistsAppend(a: seq<ArtistCredit>, b: seq<ArtistCredit>)
    ensures JoinArtists(a + b) == JoinArtists(a) + JoinArtists(b)
  {
    if a == [] {
      assert a + b == b;
    } else {
      assert (a + b)[1..] == a[1..] + b;
      JoinArtistsAppend(a[1..], b);
    }
  }

  /** Entry k sits between the text of the entries before it and the text of
      those after it, with no separator on either side. */
  lemma JoinArtistsAt(credits: seq<ArtistCredit>, k: nat)
    requires k < |credits|
    ensures JoinArtists(credits) ==
            JoinArtists(credits[..k]) + (CreditText(credits[k]) + JoinArtists(credits[k + 1..]))
  {
    var front, rest := credits[..k], credits[k..];
    assert credits == front + rest;
    JoinArtistsAppend(front, rest);
    assert rest[1..] == credits[k + 1..];
    assert JoinArtists(rest) == CreditText(rest[0]) + JoinArtists(rest[1..]);
  }

  /*** Genres ***/

  function GenreNames(genres: seq<Genre>): (names: seq<string>)
    ensures |names| == |genres|
    ensures forall i :: 0 <= i < |genres| ==> names[i] == genres[i].name
  {
    seq(|genres|, i requires 0 <= i < |genres| => genres[i].name)
  }

  /** Rust's `join(sep)` on a list of strings. */
  function JoinWith(xs: seq<string>, sep: string): string
  {
    if xs == [] then ""
    else if |xs| == 1 then xs[0]
    else xs[0] + sep + JoinWith(xs[1..], sep)
  }

  /** Appending a name adds the separator and the name; the first name gets no
      separator and an empty list joins to the empty string. */
  lemma {:induction false} JoinWithSnoc(xs: seq<string>, x: string, sep: string)
    ensures JoinWith(xs + [x], sep) == if xs == [] then x else JoinWith(xs, sep) + sep + x
  {
    if |xs| >= 2 {
      assert (xs + [x])[1..] == xs[1..] + [x];
      JoinWithSnoc(xs[1..], x, sep);
    } else if |xs| == 1 {
      assert (xs + [x])[1..] == [x];
    }
  }

  /** Appending a genre to the list extends the REM GENRE line by the
      separator and that genre's name; the first genre gets no separator. */
  lemma GenreLineSnoc(gs: seq<Genre>, g: Genre)
    ensures Render(GenreList(gs + [g]))
            == Render(GenreList(gs)) + (if gs == [] then "" else "; ") + g.name
  {
    var names := GenreNames(gs);
    assert GenreNames(gs + [g]) == names + [g.name];
    JoinWithSnoc(names, g.name, "; ");
  }

  /*** Release date ***/

  /** chrono's `{}` of the year inside a full date: four digits for years
      0..9999, otherwise a sign and at least four digits. */
  function YearField(y: int): (s: string)
    ensures |s| >= 4
  {
    if 0 <= y <= 9999 then PadZero(y, 4)
    else (if y < 0 then "-" else "+") + PadZero(if y < 0 then -y else y, 4)
  }

  /** chrono's `NaiveDate::to_string`, `YYYY-MM-DD`. */
  function FullDate(d: Date): string
  {
    YearField(d.year) + "-" + Pad2(d.month) + "-" + Pad2(d.day)
  }

  /** `ordinal() == 1`: the date is the first day of its year. */
  predicate IsFirstOfYear(d: Date) { d.month == 1 && d.day == 1 }

  /** The REM DATE value: the year alone for January 1 (how the catalog
      encodes a date known only to the year), the full date otherwise. */
  function DateText(d: Date): string
  {
    if IsFirstOfYear(d) then IntToString(d.year) else FullDate(d)
  }

  /** The year alone is written exactly when the date is January 1: a full
      date can never be mistaken for a bare year. */
  lemma DateYearOnlyIff(d: Date)
    ensures DateText(d) == IntToString(d.year) <==> IsFirstOfYear(d)
  {
    if !IsFirstOfYear(d) {
      var f, y := FullDate(d), IntToString(d.year);
      var k := |YearField(d.year)|;
      assert f[k] == '-';
      if |f| == |y| {
        assert IsDigit(y[k]);
      }
    }
  }

  /*** Header lines ***/

  /** The header lines, each kind with what it carries. */
  datatype HeaderLine =
    | Performer(credits: seq<ArtistCredit>)
    | GenreList(genres: seq<Genre>)
    | ReleaseDate(date: Date)
    | Comment(labelName: string)
    | AlbumId(id: string)
    | FileDecl

  /** The text of one header line (without its line break). */
  function Render(l: HeaderLine): string
  {
    match l
    case Performer(cs) => "PERFORMER \"" + JoinArtists(cs) + "\""
    case GenreList(gs) => "REM GENRE " + JoinWith(GenreNames(gs), "; ")
    case ReleaseDate(d) => "REM DATE " + DateText(d)
    case Comment(n) => "REM COMMENT \"" + n + "\""
    case AlbumId(id) => "REM MUSICBRAINZ_ALBUM_ID " + id
    case FileDecl => "FILE \"CDImage.flac\" WAVE"
  }

  /** The comment line one label entry contributes: none for a missing label
      or an empty name. */
  function LabelComment(li: LabelInfo): seq<HeaderLine>
  {
    match li.labelEntry
    case Some(l) => if l.name != "" then [Comment(l.name)] else []
    case None => []
  }

  /** One comment per named label, in input order, duplicates kept. */
  function LabelComments(infos: seq<LabelInfo>): seq<HeaderLine>
  {
    if infos == [] then []
    else LabelComments(infos[..|infos| - 1]) + LabelComment(infos[|infos| - 1])
  }

  function PerformerPart(r: Release): seq<HeaderLine>
  {
    if r.artistCredit.Some? then [Performer(r.artistCredit.value)] else []
  }

  function GenrePart(g: ReleaseGroup): seq<HeaderLine>
  {
    if g.genres.Some? then [GenreList(g.genres.value)] else []
  }

  function DatePart(g: ReleaseGroup): seq<HeaderLine>
  {
    if g.firstReleaseDate.Some? then [ReleaseDate(g.firstReleaseDate.value)] else []
  }

  /** The genre and date lines, written only when the release group is known. */
  function ReleaseGroupPart(r: Release): seq<HeaderLine>
  {
    match r.releaseGroup
    case Some(g) => GenrePart(g) + DatePart(g)
    case None => []
  }

  /** The lines before the two that are always written. */
  function OptionalLines(r: Release): seq<HeaderLine>
  {
    PerformerPart(r) + ReleaseGroupPart(r) + LabelComments(r.labelInfo.GetOr([]))
  }

  function HeaderLines(r: Release): seq<HeaderLine>
  {
    OptionalLines(r) + [AlbumId(r.id)] + [FileDecl]
  }

  /** Lines written one after another by `writeln!`, each ended by "\n". */
  function RenderLines(ls: seq<HeaderLine>): string
  {
    if ls == [] then "" else RenderLines(ls[..|ls| - 1]) + Render(ls[|ls| - 1]) + "\n"
  }

  /** The release header text shared by all media. */
  function HeaderText(r: Release): string
  {
    RenderLines(HeaderLines(r))
  }

  /** Comments are appended label by label: the comments of a list are those
      of its parts in order, nothing is dropped as a duplicate. */
  lemma {:induction false} LabelCommentsAppend(a: seq<LabelInfo>, b: seq<LabelInfo>)
    ensures LabelComments(a + b) == LabelComments(a) + LabelComments(b)
  {
    if b == [] {
      assert a + b == a;
    } else {
      var b' := b[..|b| - 1];
      assert (a + b)[..|a + b| - 1] == a + b';
      LabelCommentsAppend(a, b');
    }
  }

  /** Every line produced is a comment with a non-empty name. */
  lemma {:induction false} LabelCommentsAreComments(infos: seq<LabelInfo>)
    ensures forall l :: l in LabelComments(infos) ==> l.Comment? && l.labelName != ""
  {
    if infos != [] {
      LabelCommentsAreComments(infos[..|infos| - 1]);
    }
  }

  /** A comment for name n is written iff n is not empty and some entry has a
      label named n. */
  lemma {:induction false} LabelCommentsMembership(infos: seq<LabelInfo>, n: string)
    ensures Comment(n) in LabelComments(infos) <==>
            n != "" && exists i :: 0 <= i < |infos| && infos[i].labelEntry == Some(Label(n))
  {
    if infos != [] {
      var k := |infos| - 1;
      var front := infos[..k];
      LabelCommentsMembership(front, n);
      assert LabelComments(infos) == LabelComments(front) + LabelComment(infos[k]);
      if n != "" && Comment(n) !in LabelComment(infos[k]) {
        forall i | 0 <= i < k && infos[i].labelEntry == Some(Label(n))
          ensures front[i].labelEntry == Some(Label(n))
        {
        }
      }
      if exists i :: 0 <= i < k && infos[i].labelEntry == Some(Label(n)) {
        var i :| 0 <= i < k && infos[i].labelEntry == Some(Label(n));
        assert front[i] == infos[i];
      }
    }
  }

  /** Two entries of the same label give two identical comment lines. */
  lemma LabelsNotDeduplicated(name: string)
    requires name != ""
    ensures var li := LabelInfo(Some(Label(name)));
            LabelComments([li, li]) == [Comment(name), Comment(name)]
  {
    var li := LabelInfo(Some(Label(name)));
    assert [li, li][..1] == [li];
    assert [li][..0] == [];
    assert LabelComments([li]) == [Comment(name)];
  }

  /** The rank of each kind in the fixed header order. */
  function Rank(l: HeaderLine): nat
  {
    match l
    case Performer(_) => 0
    case GenreList(_) => 1
    case ReleaseDate(_) => 2
    case Comment(_) => 3
    case AlbumId(_) => 4
    case FileDecl => 5
  }

  /** Kinds appear in rank order, and only comments may repeat. */
  predicate InHeaderOrder(ls: seq<HeaderLine>)
  {
    forall i, j :: 0 <= i < j < |ls| ==>
      Rank(ls[i]) < Rank(ls[j]) || (ls[i].Comment? && ls[j].Comment?)
  }

  lemma OrderAppend(a: seq<HeaderLine>, b: seq<HeaderLine>)
    requires InHeaderOrder(a) && InHeaderOrder(b)
    requires forall x, y :: x in a && y in b ==> Rank(x) < Rank(y) || (x.Comment? && y.Comment?)
    ensures InHeaderOrder(a + b)
  {
    forall i, j | 0 <= i < j < |a + b|
      ensures Rank((a + b)[i]) < Rank((a + b)[j]) || ((a + b)[i].Comment? && (a + b)[j].Comment?)
    {
      if j < |a| {
        assert (a + b)[i] == a[i] && (a + b)[j] == a[j];
      } else if i >= |a| {
        assert (a + b)[i] == b[i - |a|] && (a + b)[j] == b[j - |a|];
      } else {
        assert (a + b)[i] in a && (a + b)[j] in b;
      }
    }
  }

  /** The header is assembled from parts of known kinds. */
  predicate PartsOfKinds(p: seq<HeaderLine>, g: seq<HeaderLine>, d: seq<HeaderLine>,
                         c: seq<HeaderLine>, t: seq<HeaderLine>)
  {
    |p| <= 1 && |g| <= 1 && |d| <= 1 && |t| == 2
    && (forall x :: x in p ==> x.Performer?)
    && (forall x :: x in g ==> x.GenreList?)
    && (forall x :: x in d ==> x.ReleaseDate?)
    && (forall x :: x in c ==> x.Comment?)
    && t[0].AlbumId? && t[1] == FileDecl
  }

  lemma PartsInOrder(p: seq<HeaderLine>, g: seq<HeaderLine>, d: seq<HeaderLine>,
                     c: seq<HeaderLine>, t: seq<HeaderLine>)
    requires PartsOfKinds(p, g, d, c, t)
    ensures InHeaderOrder(p + (g + d) + c + t)
  {
    assert forall x :: x in t ==> x == t[0] || x == t[1];
    OrderAppend(g, d);
    OrderAppend(p, g + d);
    OrderAppend(p + (g + d), c);
    OrderAppend(p + (g + d) + c, t);
  }

  /** Each optional kind occurs iff its part is non-empty. */
  lemma PartsPresence(p: seq<HeaderLine>, g: seq<HeaderLine>, d: seq<HeaderLine>,
                      c: seq<HeaderLine>, t: seq<HeaderLine>)
    requires PartsOfKinds(p, g, d, c, t)
    ensures var ls := p + (g + d) + c + t;
      && ls[|ls| - 2] == t[0] && ls[|ls| - 1] == t[1]
      && (p != [] <==> exists i :: 0 <= i < |ls| && ls[i].Performer?)
      && (p != [] ==> ls[0] == p[0])
      && (g != [] <==> exists i :: 0 <= i < |ls| && ls[i].GenreList?)
      && (d != [] <==> exists i :: 0 <= i < |ls| && ls[i].ReleaseDate?)
  {
    var ls := p + (g + d) + c + t;
    forall i | 0 <= i < |ls| ensures ls[i] in p || ls[i] in g || ls[i] in d || ls[i] in c || ls[i] in t {
      assert ls[i] in p + (g + d) + c + t;
    }
    if p != [] { assert ls[0] == p[0]; }
    if g != [] { assert ls[|p|] == g[0]; }
    if d != [] { assert ls[|p| + |g|] == d[0]; }
  }

  lemma HeaderParts(r: Release)
    ensures var g := if r.releaseGroup.Some? then GenrePart(r.releaseGroup.value) else [];
            var d := if r.releaseGroup.Some? then DatePart(r.releaseGroup.value) else [];
            var c := LabelComments(r.labelInfo.GetOr([]));
            && HeaderLines(r) == PerformerPart(r) + (g + d) + c + [AlbumId(r.id), FileDecl]
            && PartsOfKinds(PerformerPart(r), g, d, c, [AlbumId(r.id), FileDecl])
  {
    LabelCommentsAreComments(r.labelInfo.GetOr([]));
    if r.releaseGroup.None? {
      var none: seq<HeaderLine> := [];
      assert none + none == none;
    }
  }

  /** The header always follows the fixed order PERFORMER, REM GENRE, REM
      DATE, REM COMMENT..., REM MUSICBRAINZ_ALBUM_ID, FILE. */
  lemma HeaderOrder(r: Release)
    ensures InHeaderOrder(HeaderLines(r))
  {
    HeaderParts(r);
    var g := if r.releaseGroup.Some? then GenrePart(r.releaseGroup.value) else [];
    var d := if r.releaseGroup.Some? then DatePart(r.releaseGroup.value) else [];
    PartsInOrder(PerformerPart(r), g, d, LabelComments(r.labelInfo.GetOr([])), [AlbumId(r.id), FileDecl]);
  }

  /** Which optional lines are present, and exactly when; the last two lines
      are always the catalog id and the FILE declaration. */
  lemma HeaderPresence(r: Release)
    ensures var ls := HeaderLines(r);
      && |ls| >= 2
      && ls[|ls| - 2] == AlbumId(r.id) && ls[|ls| - 1] == FileDecl
      && (r.artistCredit.Some? <==> exists i :: 0 <= i < |ls| && ls[i].Performer?)
      && (r.artistCredit.Some? ==> ls[0] == Performer(r.artistCredit.value))
      && ((r.releaseGroup.Some? && r.releaseGroup.value.genres.Some?) <==>
          exists i :: 0 <= i < |ls| && ls[i].GenreList?)
      && ((r.releaseGroup.Some? && r.releaseGroup.value.firstReleaseDate.Some?) <==>
          exists i :: 0 <= i < |ls| && ls[i].ReleaseDate?)
  {
    HeaderParts(r);
    var g := if r.releaseGroup.Some? then GenrePart(r.releaseGroup.value) else [];
    var d := if r.releaseGroup.Some? then DatePart(r.releaseGroup.value) else [];
    PartsPresence(PerformerPart(r), g, d, LabelComments(r.labelInfo.GetOr([])), [AlbumId(r.id), FileDecl]);
  }

  /** An empty genre list still writes its line, with nothing after the tag. */
  lemma EmptyGenreLine()
    ensures Render(GenreList([])) == "REM GENRE "
  {
    assert GenreNames([]) == [];
  }

  lemma RenderLinesSnoc(ls: seq<HeaderLine>, l: HeaderLine)
    ensures RenderLines(ls + [l]) == RenderLines(ls) + Render(l) + "\n"
  {
    assert (ls + [l])[..|ls|] == ls;
  }

  /** The comments of one more label entry. */
  lemma LabelCommentsPrefix(infos: seq<LabelInfo>, i: nat)
    requires i < |infos|
    ensures LabelComments(infos[..i + 1]) == LabelComments(infos[..i]) + LabelComment(infos[i])
    ensures LabelComment(infos[i]) == [] ==> LabelComments(infos[..i + 1]) == LabelComments(infos[..i])
  {
    assert infos[..i + 1][..i] == infos[..i];
    assert LabelComments(infos[..i]) + [] == LabelComments(infos[..i]);
  }

  /** The lines after one more label entry that writes a comment. */
  lemma CommentStep(before: seq<HeaderLine>, infos: seq<LabelInfo>, i: nat, name: string)
    requires i < |infos| && LabelComment(infos[i]) == [Comment(name)]
    ensures before + LabelComments(infos[..i + 1])
            == (before + LabelComments(infos[..i])) + [Comment(name)]
  {
    LabelCommentsPrefix(infos, i);
  }

  /** The header text always ends with the catalog id line and the FILE line,
      after the optional lines. */
  lemma HeaderTextEnds(r: Release)
    ensures HeaderText(r) == RenderLines(OptionalLines(r))
                             + ("REM MUSICBRAINZ_ALBUM_ID " + r.id) + "\n"
                             + "FILE \"CDImage.flac\" WAVE" + "\n"
  {
    var o := OptionalLines(r);
    RenderLinesSnoc(o, AlbumId(r.id));
    RenderLinesSnoc(o + [AlbumId(r.id)], FileDecl);
  }

  /*** The header as the program builds it ***/

  /** `writeln!` of one header line after the lines already written. */
  method WriteLine(text: string, ghost written: seq<HeaderLine>, ghost l: HeaderLine, line: string)
    returns (out: string)
    requires text == RenderLines(written) && line == Render(l)
    ensures out == RenderLines(written + [l])
  {
    RenderLinesSnoc(written, l);
    out := text + line + "\n";
  }

  /** After the first i label entries: the text holds the lines `before`
      and the comments of those entries. */
  ghost predicate LabelProgress(before: seq<HeaderLine>, infos: seq<LabelInfo>, i: nat, text: string)
  {
    i <= |infos| && text == RenderLines(before + LabelComments(infos[..i]))
  }

  /** No entry done is the lines `before` alone; all entries done is those
      lines and every comment. */
  lemma LabelProgressEnds(before: seq<HeaderLine>, infos: seq<LabelInfo>, text: string)
    ensures LabelProgress(before, infos, 0, text) <==> text == RenderLines(before)
    ensures LabelProgress(before, infos, |infos|, text)
            <==> text == RenderLines(before + LabelComments(infos))
  {
    assert before + LabelComments(infos[..0]) == before;
    assert infos[..|infos|] == infos;
  }

  /** One label entry: its REM COMMENT line when it has a named label. */
  method AppendLabelComment(text: string, ghost before: seq<HeaderLine>, infos: seq<LabelInfo>, i: nat)
    returns (out: string)
    requires i < |infos| && LabelProgress(before, infos, i, text)
    ensures LabelProgress(before, infos, i + 1, out)
  {
    LabelCommentsPrefix(infos, i);
    ghost var comments := LabelComments(infos[..i]);
    out := text;
    match infos[i].labelEntry {
      case Some(l) =>
        if l.name != "" {
          assert LabelComment(infos[i]) == [Comment(l.name)];
          CommentStep(before, infos, i, l.name);
          var line := "REM COMMENT \"" + l.name + "\"";
          out := WriteLine(out, before + comments, Comment(l.name), line);
        } else {
          assert LabelComment(infos[i]) == [];
        }
      case None =>
        assert LabelComment(infos[i]) == [];
    }
  }

  /** The label loop: one REM COMMENT line per named label, appended to the
      lines `before` already written. */
  method AppendLabelComments(text: string, ghost before: seq<HeaderLine>, infos: seq<LabelInfo>)
    returns (out: string)
    requires text == RenderLines(before)
    ensures out == RenderLines(before + LabelComments(infos))
  {
    LabelProgressEnds(before, infos, text);
    out := text;
    var i := 0;
    while i < |infos|
      invariant LabelProgress(before, infos, i, out)
    {
      out := AppendLabelComment(out, before, infos, i);
      i := i + 1;
    }
    LabelProgressEnds(before, infos, out);
  }

  /** The release-group block: its genre line, then its date line, each
      only when present. */
  method AppendReleaseGroup(text: string, ghost before: seq<HeaderLine>, g: ReleaseGroup)
    returns (out: string)
    requires text == RenderLines(before)
    ensures out == RenderLines(before + (GenrePart(g) + DatePart(g)))
  {
    out := text;
    ghost var written := before;
    if g.genres.Some? {
      var line := "REM GENRE " + JoinWith(GenreNames(g.genres.value), "; ");
      out := WriteLine(out, written, GenreList(g.genres.value), line);
      written := written + [GenreList(g.genres.value)];
    }
    if g.firstReleaseDate.Some? {
      var d := g.firstReleaseDate.value;
      var line := "REM DATE " + (if IsFirstOfYear(d) then IntToString(d.year) else FullDate(d));
      out := WriteLine(out, written, ReleaseDate(d), line);
      written := written + [ReleaseDate(d)];
    }
    assert written == before + (GenrePart(g) + DatePart(g));
  }

  /** Writes the header line by line into a growing string, as the program
      does once, before it looks at any medium. */
  method BuildHeader(r: Release) returns (text: string)
    ensures text == HeaderText(r)
  {
    text := "";
    ghost var written: seq<HeaderLine> := [];
    if r.artistCredit.Some? {
      var line := "PERFORMER \"" + JoinArtists(r.artistCredit.value) + "\"";
      text := WriteLine(text, written, Performer(r.artistCredit.value), line);
      written := written + [Performer(r.artistCredit.value)];
    }
    assert written == PerformerPart(r);
    if r.releaseGroup.Some? {
      text := AppendReleaseGroup(text, written, r.releaseGroup.value);
    } else {
      assert written + ReleaseGroupPart(r) == written;
    }
    written := written + ReleaseGroupPart(r);
    text := AppendLabelComments(text, written, r.labelInfo.GetOr([]));
    written := written + LabelComments(r.labelInfo.GetOr([]));
    assert written == OptionalLines(r);
    var idLine := "REM MUSICBRAINZ_ALBUM_ID " + r.id;
    text := WriteLine(text, written, AlbumId(r.id), idLine);
    written := written + [AlbumId(r.id)];
    text := WriteLine(text, written, FileDecl, "FILE \"CDImage.flac\" WAVE");
    written := written + [FileDecl];
    assert written == HeaderLines(r);
  }
}
