/**
 * The files the program touches, and an MP4 file opened for tagging. The disk
 * is reduced to what the program observes of it: the directories it creates,
 * the tag block of every file that opens as an MP4 container, and the runs of
 * the external encoder.
 */
module Container {
  import opened TagMaps

  datatype Option<T> = None | Some(value: T)

  /** One synchronous run of `ffmpeg -i input -c:a aac -strict experimental -b:a 320k output`. */
  datatype EncoderRun = EncoderRun(input: string, output: string)

  /** A snapshot of the disk, for stating what an operation did to it. */
  datatype DiskState = DiskState(
    dirs: set<string>,
    tagBlocks: map<string, TagMap>,
    encoderRuns: seq<EncoderRun>)

  class Disk {
    var dirs: set<string>
    var tagBlocks: map<string, TagMap>
    var encoderRuns: seq<EncoderRun>

    constructor (dirs: set<string>, tagBlocks: map<string, TagMap>)
      ensures State() == DiskState(dirs, tagBlocks, [])
    {
      this.dirs := dirs;
      this.tagBlocks := tagBlocks;
      this.encoderRuns := [];
    }

    function State(): DiskState
      reads this
    {
      DiskState(dirs, tagBlocks, encoderRuns)
    }

    /** `if not os.path.exists(d): os.makedirs(d)`. */
    method MakeDirs(d: string)
      modifies this`dirs
      ensures dirs == old(dirs) + {d}
    {
      if d !in dirs {
        dirs := dirs + {d};
      }
    }

    /**
     * Runs the encoder from `input` to `output` and waits for it. What the run
     * leaves behind is outside the program: `produced` is the tag block of the
     * file it wrote, or None when it wrote nothing that opens as MP4. The exit
     * status is not reported, as the program never reads it.
     */
    method RunEncoder(input: string, output: string, produced: Option<TagMap>)
      modifies this`tagBlocks, this`encoderRuns
      ensures encoderRuns == old(encoderRuns) + [EncoderRun(input, output)]
      ensures tagBlocks == if produced.Some? then old(tagBlocks)[output := produced.value] else old(tagBlocks)
    {
      encoderRuns := encoderRuns + [EncoderRun(input, output)];
      if produced.Some? {
        tagBlocks := tagBlocks[output := produced.value];
      }
    }
  }

  /** An MP4 file opened with `MP4(path)`: its tag block, edited in memory until saved. */
  class Mp4 {
    const disk: Disk
    const path: string
    var tags: TagMap

    constructor (disk: Disk, path: string)
      requires path in disk.tagBlocks
      ensures this.disk == disk && this.path == path
      ensures tags == disk.tagBlocks[path]
    {
      this.disk := disk;
      this.path := path;
      this.tags := disk.tagBlocks[path];
    }

    /** `song.save()`: writes the in-memory tag block back to the file. */
    method Save()
      modifies disk`tagBlocks
      ensures disk.tagBlocks == old(disk.tagBlocks)[path := tags]
    {
      disk.tagBlocks := disk.tagBlocks[path := tags];
    }
  }

  /** `MP4(path)`: opens the file, or fails when it is not an MP4 container. */
  method OpenMp4(disk: Disk, path: string) returns (song: Option<Mp4>)
    ensures song.Some? <==> path in disk.tagBlocks
    ensures song.Some? ==> fresh(song.value) && song.value.disk == disk && song.value.path == path
    ensures song.Some? ==> song.value.tags == disk.tagBlocks[path]
  {
    if path in disk.tagBlocks {
      var file := new Mp4(disk, path);
      song := Some(file);
    } else {
      song := None;
    }
  }

  /**
   * `setMetadata(song, textFields, explicit)`: assigns the atoms one after the
   * other, saves once more inside the explicit branch, and saves at the end.
   * The new tag block is `Tagged` of the old one, and the file holds it.
   */
  method SetMetadata(song: Mp4, textFields: seq<string>, explicit: bool)
    requires |textFields| >= 6
    modifies song, song.disk`tagBlocks
    ensures song.tags == Tagged(old(song.tags), textFields, explicit)
    ensures song.disk.tagBlocks == old(song.disk.tagBlocks)[song.path := song.tags]
  {
    song.tags := song.tags[TitleKey := Text(textFields[0])];
    song.tags := song.tags[ArtistKey := Text(textFields[1])];
    song.tags := song.tags[AlbumKey := Text(textFields[2])];
    song.tags := song.tags[AlbumArtistKey := Text(textFields[3])];
    song.tags := song.tags[GenreKey := Text(textFields[4])];
    var year := textFields[5];
    song.tags := song.tags[YearKey := Text(year)];
    song.tags := song.tags[TrackKey := OneOfOne];
    if explicit {
      song.tags := song.tags[RatingKey := ExplicitRating];
      song.Save();
    }
    song.Save();
  }
}
