/** The release record the catalog returns, reduced to the fields the cue-sheet
    generator reads. Every field the catalog may omit is an Option. */
module Metadata {

  datatype Option<T> = None | Some(value: T) {
    function GetOr(default: T): T {
      match this
      case Some(v) => v
      case None => default
    }
  }

  /** One entry of an artist credit: a name and the literal text that follows it. */
  datatype ArtistCredit = ArtistCredit(name: string, joinPhrase: Option<string>)

  datatype Genre = Genre(name: string)

  /** A calendar date. The catalog turns a partial date (year only, or year and
      month) into a full one by filling the missing parts with 1. */
  datatype Date = Date(year: int, month: nat, day: nat)

  datatype ReleaseGroup = ReleaseGroup(genres: Option<seq<Genre>>, firstReleaseDate: Option<Date>)

  datatype Label = Label(name: string)

  datatype LabelInfo = LabelInfo(labelEntry: Option<Label>)

  datatype Recording = Recording(artistCredit: Option<seq<ArtistCredit>>)

  /** A track: its position within the medium and its length in milliseconds. */
  datatype Track = Track(position: nat, title: string, recording: Recording, length: Option<nat>)

  /** One disc of a release. */
  datatype Medium = Medium(format: Option<string>, position: Option<nat>, title: Option<string>,
                           tracks: Option<seq<Track>>)

  datatype Release = Release(
    id: string,
    title: string,
    artistCredit: Option<seq<ArtistCredit>>,
    releaseGroup: Option<ReleaseGroup>,
    labelInfo: Option<seq<LabelInfo>>,
    media: Option<seq<Medium>>)

  /** The tracks of a medium; an absent track list reads as empty. */
  function TracksOf(m: Medium): seq<Track> { m.tracks.GetOr([]) }
}
