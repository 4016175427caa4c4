/**
 * The tag block of an MP4 file as an abstract map from atom names to values,
 * and the update `setMetadata` applies to it.
 */
module TagMaps {

  /** A value stored under an MP4 atom. */
  datatype TagValue =
    | Text(text: string)                       // a string assigned as it is
    | TrackNumbers(pairs: seq<(int, int)>)     // `trkn`: (track, total) pairs
    | Integers(values: seq<int>)               // `rtng` and other integer atoms

  type TagMap = map<string, TagValue>

  const TitleKey: string := "\U{A9}nam"
  const ArtistKey: string := "\U{A9}ART"
  const AlbumKey: string := "\U{A9}alb"
  const AlbumArtistKey: string := "aART"
  const GenreKey: string := "\U{A9}gen"
  const YearKey: string := "year"
  const TrackKey: string := "trkn"
  const RatingKey: string := "rtng"

  /** The keys every save writes, whatever the explicit flag says. */
  const WrittenKeys: set<string> :=
    {TitleKey, ArtistKey, AlbumKey, AlbumArtistKey, GenreKey, YearKey, TrackKey}

  /** Track 1 of 1: the only track number the program ever stores. */
  const OneOfOne: TagValue := TrackNumbers([(1, 1)])

  /** The rating that marks a track explicit. */
  const ExplicitRating: TagValue := Integers([1])

  /** The eight atom names are pairwise distinct. */
  lemma {:induction false} KeysDistinct()
    ensures |WrittenKeys| == 7 && RatingKey !in WrittenKeys
  {
    assert TitleKey[1..] == "nam" && ArtistKey[1..] == "ART" && AlbumKey[1..] == "alb";
    assert GenreKey[1..] == "gen" && AlbumArtistKey[0] == 'a' && YearKey[0] == 'y';
    assert TrackKey[0] == 't' && RatingKey[0] == 'r' && RatingKey[1] == 't';
    assert TitleKey[0] == '\U{A9}';
  }

  /**
   * `setMetadata` on the tag block `tags`: the five text fields go verbatim
   * under title, artist, album, album artist and genre, field 5 under "year",
   * track 1 of 1 under "trkn" (field 6 is never read), and the explicit rating
   * under "rtng" only when `explicit` holds. Nothing is removed.
   */
  function Tagged(tags: TagMap, textFields: seq<string>, explicit: bool): (r: TagMap)
    requires |textFields| >= 6
    ensures TitleKey in r && r[TitleKey] == Text(textFields[0])
    ensures ArtistKey in r && r[ArtistKey] == Text(textFields[1])
    ensures AlbumKey in r && r[AlbumKey] == Text(textFields[2])
    ensures AlbumArtistKey in r && r[AlbumArtistKey] == Text(textFields[3])
    ensures GenreKey in r && r[GenreKey] == Text(textFields[4])
    ensures YearKey in r && r[YearKey] == Text(textFields[5])
    ensures TrackKey in r && r[TrackKey] == OneOfOne
    ensures explicit ==> RatingKey in r && r[RatingKey] == ExplicitRating
    ensures !explicit ==> (RatingKey in r <==> RatingKey in tags)
    ensures !explicit && RatingKey in tags ==> r[RatingKey] == tags[RatingKey]
    ensures forall k :: k !in WrittenKeys && k != RatingKey ==>
      (k in r <==> k in tags) && (k in tags ==> r[k] == tags[k])
    ensures r.Keys == tags.Keys + WrittenKeys + (if explicit then {RatingKey} else {})
  {
    KeysDistinct();
    var written := tags[TitleKey := Text(textFields[0])]
                       [ArtistKey := Text(textFields[1])]
                       [AlbumKey := Text(textFields[2])]
                       [AlbumArtistKey := Text(textFields[3])]
                       [GenreKey := Text(textFields[4])]
                       [YearKey := Text(textFields[5])]
                       [TrackKey := OneOfOne];
    if explicit then written[RatingKey := ExplicitRating] else written
  }

  /** The track field the form supplies has no effect on what is stored. */
  lemma {:induction false} TrackFieldIgnored(tags: TagMap, f: seq<string>, g: seq<string>, explicit: bool)
    requires |f| == |g| == 7
    requires f[..6] == g[..6]
    ensures Tagged(tags, f, explicit) == Tagged(tags, g, explicit)
  {
    assert forall i :: 0 <= i < 6 ==> f[i] == f[..6][i] == g[..6][i] == g[i];
  }

  /**
   * A save fully replaces the written fields: after two saves, every key the
   * second one writes holds the second one's value, whatever the first wrote.
   */
  lemma {:induction false} SecondSaveWins(tags: TagMap, f1: seq<string>, e1: bool, f2: seq<string>, e2: bool)
    requires |f1| >= 6 && |f2| >= 6
    ensures var twice := Tagged(Tagged(tags, f1, e1), f2, e2);
      forall k :: k in WrittenKeys ==> twice[k] == Tagged(tags, f2, e2)[k]
  {
  }

  /** Saving the same fields twice is the same as saving them once. */
  lemma {:induction false} TaggedIdempotent(tags: TagMap, f: seq<string>, explicit: bool)
    requires |f| >= 6
    ensures Tagged(Tagged(tags, f, explicit), f, explicit) == Tagged(tags, f, explicit)
  {
    var once := Tagged(tags, f, explicit);
    var twice := Tagged(once, f, explicit);
    assert twice.Keys == once.Keys;
    forall k | k in once ensures twice[k] == once[k] {
      if k == RatingKey && !explicit {
        assert twice[k] == once[k];
      }
    }
  }

  /**
   * Starting from a block without a rating, the rating is present after a
   * save exactly when the track was marked explicit; a rating set earlier is
   * never cleared by a later save that is not explicit.
   */
  lemma {:induction false} RatingPresentIffExplicit(tags: TagMap, f: seq<string>, explicit: bool)
    requires |f| >= 6
    ensures RatingKey !in tags ==> (RatingKey in Tagged(tags, f, explicit) <==> explicit)
    ensures RatingKey in tags ==> RatingKey in Tagged(tags, f, explicit)
  {
  }
}
