/** `kuku_z.py`: the asynchronous downloader that writes FLAC files. Its
    pagination, stream-URL rewrite, task list and batch split are those of
    `kuku/dl.py` (`KukuDl.PlanAlbum`); what differs is the folder name,
    which lacks the space after the title, and the Vorbis-comment tagger. */
module KukuFlac {
  import opened Options
  import opened Text
  import opened Sanitise
  import opened Catalog
  import opened Tags
  import opened Tagger
  import opened Storage
  import KukuDl

  /** The folder name of `create_dirs`: "Title(YYYY) [Lang]", sanitised, with
      no space between the title and the year. */
  function FolderName(show: ShowMeta): string {
    SanitiseName(show.title + KukuDl.YearPart(show.date) + "[" + show.lang + "]")
  }

  /** The title, year and language are sanitised separately; the title runs
      straight into the year. */
  lemma FolderNameParts(show: ShowMeta)
    ensures FolderName(show) == ImageAll(show.title) + KukuDl.SanitisedYearPart(show.date) + "[" + ImageAll(show.lang) + "]"
  {
    KukuDl.SanitiseBracketed(show.title, KukuDl.YearPart(show.date), show.lang);
    KukuDl.YearPartImage(show.date);
  }

  /** The two folder names differ by exactly the space after the title. */
  lemma FolderNameMissesSpace(show: ShowMeta)
    ensures StartsWith(FolderName(show), ImageAll(show.title))
    ensures KukuDl.FolderName(show) == ImageAll(show.title) + " " + FolderName(show)[|ImageAll(show.title)|..]
  {
    FolderNameParts(show);
    KukuDl.FolderNameParts(show);
    SpaceInserted(FolderName(show), KukuDl.FolderName(show),
                  ImageAll(show.title), KukuDl.SanitisedYearPart(show.date), ImageAll(show.lang));
  }

  lemma SpaceInserted(z: string, d: string, a: string, y: string, l: string)
    requires z == a + y + "[" + l + "]" && d == a + " " + y + "[" + l + "]"
    ensures StartsWith(z, a) && d == a + " " + z[|a|..]
  {
    var rest := y + "[" + l + "]";
    assert z == a + rest;
    assert d == a + " " + rest;
    assert z[..|a|] == a && z[|a|..] == rest;
  }

  /** `os.path.join(os.getcwd(), self._path, sanitiseName(folderName))`. */
  function AlbumPath(cwd: string, base: string, show: ShowMeta): string {
    PathJoin(PathJoin(cwd, base), FolderName(show))
  }

  /** `create_dirs` of `kuku_z.py`: as in `kuku/dl.py`, with its own folder
      name: it raises (`ok` is false) when the album path is a regular file
      or `cover.png` inside it is a directory, and writes the cover only
      when `ok`. */
  method CreateDirs(disk: Disk, cwd: string, base: string, show: ShowMeta, image: seq<bv8>)
    returns (albumPath: string, coverPath: string, ok: bool)
    requires disk.Valid()
    modifies disk
    ensures disk.Valid()
    ensures albumPath == AlbumPath(cwd, base, show) && coverPath == PathJoin(albumPath, "cover.png")
    ensures ok <==> !(albumPath in old(disk.files) && albumPath !in old(disk.dirs)) && coverPath !in old(disk.dirs)
    ensures disk.files == old(disk.files) + {albumPath} + (if ok then {coverPath} else {})
    ensures disk.dirs == old(disk.dirs) + (if albumPath in old(disk.files) then {} else {albumPath})
    ensures disk.contents == if ok then old(disk.contents)[coverPath := Binary(image)] else old(disk.contents)
  {
    albumPath := AlbumPath(cwd, base, show);
    AlbumPathEnds(cwd, base, show);
    coverPath, ok := KukuDl.PrepareAlbum(disk, albumPath, image);
  }

  /** The album path ends with the folder's closing bracket: it is not empty
      and has no trailing slash. */
  lemma AlbumPathEnds(cwd: string, base: string, show: ShowMeta)
    ensures AlbumPath(cwd, base, show) != [] && !EndsWith(AlbumPath(cwd, base, show), "/")
  {
    FolderNameParts(show);
    var f := FolderName(show);
    assert EndsWith(f, "]") by {
      assert f[|f| - 1..] == "]";
    }
    EndsWithTrans(AlbumPath(cwd, base, show), f, "]");
    BracketNotSlash(AlbumPath(cwd, base, show));
  }

  /** The comment assignments of `download`, then the credits loop. */
  method TagComments(existing: map<string, string>, show: ShowMeta, ep: EpMeta)
    returns (comments: map<string, string>)
    ensures comments == FlacComments(existing, show, ep)
  {
    comments := AssignComments(existing, show, ep);
    comments := AssignCreditComments(comments, show.credits);
  }

  /** Writing the comments of a tagged block again gives the same comments
      (the picture list, by contrast, grows by one on every pass). */
  method RetagIsStable(existing: map<string, string>, show: ShowMeta, ep: EpMeta)
    returns (first: map<string, string>, second: map<string, string>)
    ensures first == FlacComments(existing, show, ep)
    ensures second == first
  {
    first := TagComments(existing, show, ep);
    second := TagComments(first, show, ep);
    FlacCommentsIdempotent(existing, show, ep);
  }

  /** The file `download` tags: yt-dlp's audio extraction appends `.flac`. */
  function MediaPath(path: string): string {
    path + ".flac"
  }

  /** `download` of `kuku_z.py`: as in `kuku/dl.py`, but the file opened
      and tagged is `path + ".flac"`, and opening it raises when it is a
      directory or not a FLAC file. The cover is appended as a picture. */
  method Download(disk: Disk, show: ShowMeta, ep: EpMeta, path: string, srtPath: Option<string>,
                  cover: seq<bv8>, fetch: Fetch, subtitle: string)
    returns (outcome: Outcome, requests: seq<string>)
    requires disk.Valid()
    modifies disk
    ensures disk.Valid() && disk.dirs == old(disk.dirs)
    ensures old(disk.Present(path)) ==>
      outcome == Skipped && requests == [] && disk.files == old(disk.files) && disk.contents == old(disk.contents)
    ensures !old(disk.Present(path)) ==>
      outcome != Skipped &&
      requests == [ep.hls] + (if KukuDl.WantsSubtitle(ep, srtPath) then [ep.srt] else [])
    ensures !old(disk.Present(path)) && KukuDl.SubtitleBlocked(ep, srtPath, old(disk.dirs)) ==>
      outcome == Raised(PathIsDirectory) &&
      disk.files == old(disk.files) + fetch.written.Keys && disk.contents == old(disk.contents) + fetch.written
    ensures !old(disk.Present(path)) && !KukuDl.SubtitleBlocked(ep, srtPath, old(disk.dirs)) ==>
      disk.files == old(disk.files) + fetch.written.Keys + (if KukuDl.WantsSubtitle(ep, srtPath) then {srtPath.value} else {})
    ensures !old(disk.Present(path)) && !KukuDl.SubtitleBlocked(ep, srtPath, old(disk.dirs)) ==>
      var staged := KukuDl.Staged(old(disk.contents), fetch, ep, srtPath, subtitle);
      var media := MediaPath(path);
      (outcome == Completed <==> media in staged && staged[media].FlacFile? && media !in old(disk.dirs)) &&
      (outcome == Completed ==>
        disk.contents == staged[media := FlacFile(FlacComments(staged[media].comments, show, ep),
                                                  staged[media].pictures + [cover])]) &&
      (outcome != Completed ==> outcome == Raised(NotFlac) && disk.contents == staged)
  {
    var present := disk.Exists(path);
    if present {
      return Skipped, [];
    }
    requests := [ep.hls];
    disk.ApplyFetch(fetch);
    if KukuDl.WantsSubtitle(ep, srtPath) {
      requests := requests + [ep.srt];
      var written := disk.Write(srtPath.value, TextFile(subtitle));
      if !written {
        return Raised(PathIsDirectory), requests;
      }
    }
    var media := MediaPath(path);
    if !(media in disk.contents && disk.contents[media].FlacFile? && media !in disk.dirs) {
      return Raised(NotFlac), requests;
    }
    var file := disk.contents[media];
    var comments := TagComments(file.comments, show, ep);
    var saved := disk.Write(media, FlacFile(comments, file.pictures + [cover]));
    outcome := Completed;
  }

  /** As in `kuku/dl.py`, an episode whose title sanitises to nothing has
      the track path `albumPath + "/"`, the album directory itself, and is
      never fetched. */
  method UntitledEpisodeSkipped(disk: Disk, cwd: string, base: string, show: ShowMeta, image: seq<bv8>,
                                raw: RawEpisode, ripSubs: bool, fetch: Fetch, subtitle: string)
    returns (task: KukuDl.Task, outcome: Outcome, requests: seq<string>)
    requires disk.Valid()
    requires AlbumPath(cwd, base, show) in disk.files ==> AlbumPath(cwd, base, show) in disk.dirs
    requires PathJoin(AlbumPath(cwd, base, show), "cover.png") !in disk.dirs
    requires raw.content.hlsUrl.Some? && SanitiseName(Strip(raw.title)) == []
    modifies disk
    ensures task.trackPath == AlbumPath(cwd, base, show) + "/"
    ensures outcome == Skipped && requests == []
  {
    AlbumPathEnds(cwd, base, show);
    var albumPath, coverPath, ok := CreateDirs(disk, cwd, base, show, image);
    assert ok && albumPath in disk.dirs;
    KukuDl.TaskShape(raw, albumPath, ripSubs);
    task := KukuDl.TaskOf(raw, albumPath, ripSubs).value;
    AlbumPathEnds(cwd, base, show);
    SlashedDirectory(albumPath);
    assert disk.Present(task.trackPath);
    outcome, requests := Download(disk, show, task.meta, task.trackPath, task.srtPath, image, fetch, subtitle);
  }

  /** As in `kuku/dl.py`, the existence check looks at `path` while the file
      made and tagged is `path + ".flac"`: a second run on the same disk,
      which still lacks `path`, fetches the stream again. */
  method RerunRepeatsDownload(existing: set<string>, directories: set<string>, show: ShowMeta, ep: EpMeta,
                              path: string, srtPath: Option<string>, cover: seq<bv8>, fetch: Fetch, subtitle: string)
    returns (first: Outcome, second: Outcome, firstRequests: seq<string>, secondRequests: seq<string>)
    requires directories <= existing
    requires path !in existing && !(EndsWith(path, "/") && RStripChar(path, '/') in directories)
    requires path !in fetch.written
    requires srtPath.None? || srtPath.value != path
    ensures first != Skipped && second != Skipped
    ensures secondRequests == firstRequests && |firstRequests| >= 1 && firstRequests[0] == ep.hls
  {
    var disk := new Disk(existing, directories);
    first, firstRequests := Download(disk, show, ep, path, srtPath, cover, fetch, subtitle);
    second, secondRequests := Download(disk, show, ep, path, srtPath, cover, fetch, subtitle);
  }
}
