/**
 * The main window's save pipeline: the Save button (`clicker`), the selection
 * normalisation (`getSelectedItem` and `convert`) and the tagging of the first
 * selected file (`saveAndApply`). The form's seven text fields and the explicit
 * check box are parameters, and so is what the external encoder leaves behind.
 */
module App {
  import opened Paths
  import opened TagMaps
  import opened Container
  import opened DropList

  /** How one press of Save ends. */
  datatype SaveOutcome =
    | NoSelection                // nothing selected: the press is ignored
    | CannotOpen(path: string)   // `MP4(path)` fails: nothing is tagged
    | Saved(path: string)        // the file at `path` holds the new tags

  /**
   * What `convert(p)` does to the disk: the conversion directory exists, the
   * encoder has run once from `p` to the output path, and the output file holds
   * whatever tag block the encoder gave it.
   */
  function ConvertEffect(s: DiskState, cwd: string, p: string, encoded: Option<TagMap>): (r: DiskState)
    ensures ConvDir(cwd) in r.dirs && s.dirs <= r.dirs && r.dirs - s.dirs <= {ConvDir(cwd)}
    ensures |r.encoderRuns| == |s.encoderRuns| + 1 && r.encoderRuns[..|s.encoderRuns|] == s.encoderRuns
    ensures r.encoderRuns[|s.encoderRuns|] == EncoderRun(p, ConvertPath(cwd, p))
    ensures ConvertPath(cwd, p) in r.tagBlocks <==> encoded.Some? || ConvertPath(cwd, p) in s.tagBlocks
    ensures encoded.Some? ==> r.tagBlocks[ConvertPath(cwd, p)] == encoded.value
    ensures forall q :: q != ConvertPath(cwd, p) ==>
      (q in r.tagBlocks <==> q in s.tagBlocks) && (q in s.tagBlocks ==> r.tagBlocks[q] == s.tagBlocks[q])
  {
    var out := ConvertPath(cwd, p);
    DiskState(
      s.dirs + {ConvDir(cwd)},
      if encoded.Some? then s.tagBlocks[out := encoded.value] else s.tagBlocks,
      s.encoderRuns + [EncoderRun(p, out)])
  }

  /** What `getSelectedItem` does to the disk when `first` heads the selection. */
  function SelectEffect(s: DiskState, cwd: string, first: string, encoded: Option<TagMap>): (r: DiskState)
    ensures EndsWith(first, M4a) ==> r == s
    ensures !EndsWith(first, M4a) ==> r.encoderRuns == s.encoderRuns + [EncoderRun(first, NormalizedPath(cwd, first))]
    ensures NormalizedPath(cwd, first) in r.tagBlocks <==>
      NormalizedPath(cwd, first) in s.tagBlocks || (!EndsWith(first, M4a) && encoded.Some?)
    ensures forall q :: q != NormalizedPath(cwd, first) ==>
      (q in r.tagBlocks <==> q in s.tagBlocks) && (q in s.tagBlocks ==> r.tagBlocks[q] == s.tagBlocks[q])
  {
    if EndsWith(first, M4a) then s else ConvertEffect(s, cwd, first, encoded)
  }

  /**
   * One press of Save, from the disk before to the disk after and the outcome:
   * nothing happens without a selection; otherwise the head of the selection is
   * normalised to an `.m4a` path (converting when needed) and, if that file
   * opens, its tag block becomes `Tagged` of what it was.
   */
  function SaveEffect(s: DiskState, cwd: string, selection: seq<string>,
                      textFields: seq<string>, explicit: bool, encoded: Option<TagMap>): (r: (DiskState, SaveOutcome))
    requires |textFields| >= 6
    ensures r.1 == NoSelection <==> selection == []
    ensures selection == [] ==> r.0 == s
    ensures r.1 != NoSelection ==> r.1.path == NormalizedPath(cwd, selection[0]) && EndsWith(r.1.path, M4a)
    ensures r.1.Saved? ==> r.1.path in r.0.tagBlocks
    ensures r.1.Saved? <==>
      (r.1 != NoSelection && r.1.path in SelectEffect(s, cwd, selection[0], encoded).tagBlocks)
    ensures r.1.Saved? ==>
      r.0.tagBlocks[r.1.path] == Tagged(SelectEffect(s, cwd, selection[0], encoded).tagBlocks[r.1.path], textFields, explicit)
  {
    if selection == [] then (s, NoSelection)
    else
      var target := NormalizedPath(cwd, selection[0]);
      var s1 := SelectEffect(s, cwd, selection[0], encoded);
      if target in s1.tagBlocks then
        (s1.(tagBlocks := s1.tagBlocks[target := Tagged(s1.tagBlocks[target], textFields, explicit)]), Saved(target))
      else
        (s1, CannotOpen(target))
  }

  /** Only the head of the selection matters: the other selected files are neither converted nor tagged. */
  lemma {:induction false} OnlyFirstSelectedIsProcessed(s: DiskState, cwd: string, selection: seq<string>,
                                     textFields: seq<string>, explicit: bool, encoded: Option<TagMap>)
    requires |textFields| >= 6
    requires selection != []
    ensures SaveEffect(s, cwd, selection, textFields, explicit, encoded)
         == SaveEffect(s, cwd, [selection[0]], textFields, explicit, encoded)
  {
  }

  /** No file's tag block changes except the one at the normalised path of the head of the selection. */
  lemma {:induction false} OtherFilesUntouched(s: DiskState, cwd: string, selection: seq<string>,
                            textFields: seq<string>, explicit: bool, encoded: Option<TagMap>, q: string)
    requires |textFields| >= 6
    requires selection == [] || q != NormalizedPath(cwd, selection[0])
    ensures var after := SaveEffect(s, cwd, selection, textFields, explicit, encoded).0;
      (q in after.tagBlocks <==> q in s.tagBlocks) &&
      (q in s.tagBlocks ==> after.tagBlocks[q] == s.tagBlocks[q])
  {
  }

  /** An `.m4a` selection is tagged where it is: no encoder run, no directory created. */
  lemma {:induction false} M4aSelectionIsNotConverted(s: DiskState, cwd: string, selection: seq<string>,
                                   textFields: seq<string>, explicit: bool, encoded: Option<TagMap>)
    requires |textFields| >= 6
    requires selection != [] && EndsWith(selection[0], M4a)
    ensures var r := SaveEffect(s, cwd, selection, textFields, explicit, encoded);
      r.0.encoderRuns == s.encoderRuns && r.0.dirs == s.dirs && r.1.path == selection[0]
  {
  }

  /**
   * Any other selection is encoded exactly once, into the conversion directory
   * of the working directory, and the encoder's output is the file tagged.
   */
  lemma {:induction false} OtherSelectionIsConvertedOnce(s: DiskState, cwd: string, selection: seq<string>,
                                      textFields: seq<string>, explicit: bool, encoded: Option<TagMap>)
    requires |textFields| >= 6
    requires selection != [] && !EndsWith(selection[0], M4a)
    ensures var r := SaveEffect(s, cwd, selection, textFields, explicit, encoded);
      && r.0.encoderRuns == s.encoderRuns + [EncoderRun(selection[0], r.1.path)]
      && r.0.dirs == s.dirs + {ConvDir(cwd)}
      && r.1.path == ConvDir(cwd) + [Sep] + DropLast4(Basename(selection[0])) + M4a
  {
    ConvertPathShape(cwd, selection[0]);
  }

  /**
   * A failed conversion is not detected: with no usable output the encoder run
   * is still recorded and the save ends when the output will not open; if an
   * older file sits at the output path, that file is the one tagged.
   */
  lemma {:induction false} FailedConversionGoesUnnoticed(s: DiskState, cwd: string, selection: seq<string>,
                                      textFields: seq<string>, explicit: bool)
    requires |textFields| >= 6
    requires selection != [] && !EndsWith(selection[0], M4a)
    ensures var out := ConvertPath(cwd, selection[0]);
      var r := SaveEffect(s, cwd, selection, textFields, explicit, None);
      && |r.0.encoderRuns| == |s.encoderRuns| + 1
      && (out !in s.tagBlocks ==> r.1 == CannotOpen(out) && r.0.tagBlocks == s.tagBlocks)
      && (out in s.tagBlocks ==> r.1 == Saved(out) && r.0.tagBlocks[out] == Tagged(s.tagBlocks[out], textFields, explicit))
  {
  }

  /** After a save, the file holds the form's fields, track 1 of 1, and the rating when explicit. */
  lemma {:induction false} SavedFileHoldsFields(s: DiskState, cwd: string, selection: seq<string>,
                                                textFields: seq<string>, explicit: bool, encoded: Option<TagMap>)
    requires |textFields| >= 6
    ensures var r := SaveEffect(s, cwd, selection, textFields, explicit, encoded);
      r.1.Saved? ==>
        var tags := r.0.tagBlocks[r.1.path];
        && tags[TitleKey] == Text(textFields[0]) && tags[ArtistKey] == Text(textFields[1])
        && tags[AlbumKey] == Text(textFields[2]) && tags[AlbumArtistKey] == Text(textFields[3])
        && tags[GenreKey] == Text(textFields[4]) && tags[YearKey] == Text(textFields[5])
        && tags[TrackKey] == OneOfOne
        && (explicit ==> tags[RatingKey] == ExplicitRating)
  {
  }

  /**
   * Saving an `.m4a` file twice leaves the second save's values under every
   * key a save writes: title "A" then title "B" reads back "B".
   */
  lemma {:induction false} SecondSaveOverwrites(s: DiskState, cwd: string, p: string,
                                                f1: seq<string>, e1: bool, f2: seq<string>, e2: bool, encoded: Option<TagMap>)
    requires |f1| >= 6 && |f2| >= 6
    requires EndsWith(p, M4a) && p in s.tagBlocks
    ensures var once := SaveEffect(s, cwd, [p], f1, e1, encoded).0;
      var twice := SaveEffect(once, cwd, [p], f2, e2, encoded).0;
      p in twice.tagBlocks &&
      forall k :: k in WrittenKeys ==> twice.tagBlocks[p][k] == Tagged(s.tagBlocks[p], f2, e2)[k]
  {
    var once := SaveEffect(s, cwd, [p], f1, e1, encoded).0;
    assert once.tagBlocks[p] == Tagged(s.tagBlocks[p], f1, e1);
    SecondSaveWins(s.tagBlocks[p], f1, e1, f2, e2);
  }

  /**
   * The end-to-end example: "/music/track.mp3" selected in "/home/user", not
   * explicit, and the encoder writes a fresh file without tags, which
   * replaces any earlier "/home/user/conv/track.m4a". That file is tagged,
   * track 7 is stored as 1 of 1, and no rating is set.
   */
  lemma {:induction false} EndToEndExample(s: DiskState)
    ensures var fields := ["Song", "Artist", "Album", "Artist", "Pop", "2020", "7"];
      var r := SaveEffect(s, "/home/user", ["/music/track.mp3"], fields, false, Some(map[]));
      && r.1 == Saved("/home/user/conv/track.m4a")
      && r.0.encoderRuns == s.encoderRuns + [EncoderRun("/music/track.mp3", "/home/user/conv/track.m4a")]
      && r.0.tagBlocks["/home/user/conv/track.m4a"] == map[
           TitleKey := Text("Song"), ArtistKey := Text("Artist"), AlbumKey := Text("Album"),
           AlbumArtistKey := Text("Artist"), GenreKey := Text("Pop"), YearKey := Text("2020"),
           TrackKey := OneOfOne]
  {
    ExamplePath();
    ExampleTags();
  }

  lemma {:induction false} ExamplePath()
    ensures !EndsWith("/music/track.mp3", M4a)
    ensures ConvertPath("/home/user", "/music/track.mp3") == "/home/user/conv/track.m4a"
  {
    var p := "/music/track.mp3";
    assert p[|p| - 4..][3] == '3';
    ExampleBasename();
    ExampleConvDir();
    ConvertPathLayout("/home/user", p);
    assert DropLast4("track.mp3") == "track";
  }

  lemma {:induction false} ExampleBasename()
    ensures Basename("/music/track.mp3") == "track.mp3"
  {
    assert "/music/track.mp3" == "/music/" + "track.mp3";
    assert "/music/"[6] == Sep;
    BasenameUnderDir("/music/", "track.mp3");
  }

  lemma {:induction false} ExampleConvDir()
    ensures ConvDir("/home/user") == "/home/user/conv"
  {
    assert "/home/user"[9] == 'r';
  }

  lemma {:induction false} ExampleTags()
    ensures Tagged(map[], ["Song", "Artist", "Album", "Artist", "Pop", "2020", "7"], false) == map[
           TitleKey := Text("Song"), ArtistKey := Text("Artist"), AlbumKey := Text("Album"),
           AlbumArtistKey := Text("Artist"), GenreKey := Text("Pop"), YearKey := Text("2020"),
           TrackKey := OneOfOne]
  {
  }

  /** The main window: its file list, the disk, and the working directory the program runs in. */
  class Window {
    const listBox: ListBox
    const disk: Disk
    const cwd: string

    constructor (listBox: ListBox, disk: Disk, cwd: string)
      ensures this.listBox == listBox && this.disk == disk && this.cwd == cwd
    {
      this.listBox := listBox;
      this.disk := disk;
      this.cwd := cwd;
    }

    /**
     * `convert(preSongPath)`: creates the conversion directory if needed, runs
     * the encoder into it and returns the output path, whether or not the
     * encoder succeeded.
     */
    method Convert(preSongPath: string, encoded: Option<TagMap>) returns (convFilePath: string)
      modifies disk
      ensures convFilePath == ConvertPath(cwd, preSongPath)
      ensures disk.State() == ConvertEffect(old(disk.State()), cwd, preSongPath, encoded)
    {
      var conv := Join(cwd, ConvDirName);
      disk.MakeDirs(conv);
      convFilePath := Join(conv, DropLast4(Basename(preSongPath)) + M4a);
      disk.RunEncoder(preSongPath, convFilePath, encoded);
    }

    /**
     * `getSelectedItem()`: the selected texts, with the head replaced by its
     * conversion when it does not end in ".m4a"; the rest are left as they are.
     */
    method GetSelectedItem(encoded: Option<TagMap>) returns (selectedItems: seq<string>)
      requires listBox.Valid() && |listBox.SelectedTexts()| > 0
      modifies disk
      ensures |selectedItems| == |listBox.SelectedTexts()|
      ensures selectedItems[0] == NormalizedPath(cwd, listBox.SelectedTexts()[0])
      ensures selectedItems[1..] == listBox.SelectedTexts()[1..]
      ensures disk.State() == SelectEffect(old(disk.State()), cwd, listBox.SelectedTexts()[0], encoded)
    {
      selectedItems := listBox.SelectedTexts();
      if !EndsWith(selectedItems[0], M4a) {
        var converted := Convert(selectedItems[0], encoded);
        selectedItems := selectedItems[0 := converted];
      }
    }

    /** `saveAndApply(textFields, explicit)`: normalises the selection and tags its head. */
    method SaveAndApply(textFields: seq<string>, explicit: bool, encoded: Option<TagMap>) returns (outcome: SaveOutcome)
      requires listBox.Valid() && |listBox.SelectedTexts()| > 0
      requires |textFields| >= 6
      modifies disk
      ensures (disk.State(), outcome)
           == SaveEffect(old(disk.State()), cwd, listBox.SelectedTexts(), textFields, explicit, encoded)
    {
      var songPathArray := GetSelectedItem(encoded);
      outcome := NoSelection;
      if |songPathArray| > 0 {
        var song := OpenMp4(disk, songPathArray[0]);
        match song {
          case None =>
            outcome := CannotOpen(songPathArray[0]);
          case Some(file) =>
            SetMetadata(file, textFields, explicit);
            outcome := Saved(songPathArray[0]);
        }
      }
    }

    /**
     * `clicker()`, the Save button: returns at once when nothing is selected,
     * otherwise saves the form's seven fields and the explicit flag.
     */
    method Clicker(textFields: seq<string>, explicit: bool, encoded: Option<TagMap>) returns (outcome: SaveOutcome)
      requires listBox.Valid()
      requires |textFields| == 7
      modifies disk
      ensures (disk.State(), outcome)
           == SaveEffect(old(disk.State()), cwd, listBox.SelectedTexts(), textFields, explicit, encoded)
    {
      if |listBox.SelectedTexts()| == 0 {
        outcome := NoSelection;
        return;
      }
      outcome := SaveAndApply(textFields, explicit, encoded);
    }
  }
}
