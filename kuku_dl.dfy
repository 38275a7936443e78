/** `kuku/dl.py`: the asynchronous downloader that writes MP4 files. Its
    album folder, stream-URL rewrite, task list and batch split are shared
    word for word by `kuku_z.py`. */
module KukuDl {
  import opened Options
  import opened Text
  import opened Seqs
  import opened Sanitise
  import opened Partition
  import opened Pagination
  import opened Catalog
  import opened Tags
  import opened Tagger
  import opened Storage

  /** `f"({date[:4]}) "` when the show has a date, else nothing. */
  function YearPart(date: string): string {
    if date != "" then "(" + Prefix(date, 4) + ") " else ""
  }

  /** The folder name of `create_dirs`: "Title (YYYY) [Lang]", sanitised. */
  function FolderName(show: ShowMeta): string {
    SanitiseName(show.title + " " + YearPart(show.date) + "[" + show.lang + "]")
  }

  /** `YearPart` with its year sanitised character by character. */
  function SanitisedYearPart(date: string): string {
    if date != "" then "(" + ImageAll(Prefix(date, 4)) + ") " else ""
  }

  lemma YearPartImage(date: string)
    ensures ImageAll(YearPart(date)) == SanitisedYearPart(date)
  {
    if date != "" {
      var y := Prefix(date, 4);
      ImageAllConcat("(" + y, ") ");
      ImageAllConcat("(", y);
      ImageAllPlain("(");
      ImageAllPlain(") ");
    } else {
      assert YearPart(date) == [];
    }
  }

  /** A name of the form `t + y + "[" + l + "]"` is sanitised part by part. */
  lemma SanitiseBracketed(t: string, y: string, l: string)
    ensures SanitiseName(t + y + "[" + l + "]") == ImageAll(t) + ImageAll(y) + "[" + ImageAll(l) + "]"
  {
    var a := t + y + "[" + l;
    SanitiseConcat(a, "]");
    SanitiseCloseBracket();
    ImageAllConcat(t + y + "[", l);
    ImageAllConcat(t + y, "[");
    ImageAllConcat(t, y);
    ImageAllPlain("[");
  }

  /** The sanitiser acts on each part of the folder name separately: the
      title, the year and the language are sanitised, the separators and
      the closing bracket stay. */
  lemma FolderNameParts(show: ShowMeta)
    ensures FolderName(show) == ImageAll(show.title) + " " + SanitisedYearPart(show.date) + "[" + ImageAll(show.lang) + "]"
  {
    SanitiseBracketed(show.title + " ", YearPart(show.date), show.lang);
    ImageAllConcat(show.title, " ");
    ImageAllPlain(" ");
    YearPartImage(show.date);
  }

  /** A title, year and language without forbidden characters and colons
      give exactly "Title (YYYY) [Lang]". */
  lemma FolderNamePlain(show: ShowMeta)
    requires forall i :: 0 <= i < |show.title| ==> !Unsafe(show.title[i])
    requires forall i :: 0 <= i < |show.lang| ==> !Unsafe(show.lang[i])
    requires forall i :: 0 <= i < |Prefix(show.date, 4)| ==> !Unsafe(Prefix(show.date, 4)[i])
    ensures FolderName(show) == show.title + " " + YearPart(show.date) + "[" + show.lang + "]"
  {
    FolderNameParts(show);
    ImageAllPlain(show.title);
    ImageAllPlain(show.lang);
    ImageAllPlain(Prefix(show.date, 4));
  }

  /** The folder name is safe and always ends with the closing bracket, so
      it is never empty and never an absolute path. */
  lemma FolderNameSafe(show: ShowMeta)
    ensures forall i :: 0 <= i < |FolderName(show)| ==> !Unsafe(FolderName(show)[i])
    ensures EndsWith(FolderName(show), "]")
  {
    SanitiseIsSafe(show.title + " " + YearPart(show.date) + "[" + show.lang + "]");
    FolderNameParts(show);
  }

  /** `os.path.join(os.getcwd(), self._path, sanitiseName(folderName))`. */
  function AlbumPath(cwd: string, base: string, show: ShowMeta): string {
    PathJoin(PathJoin(cwd, base), FolderName(show))
  }

  /** The album directory is the folder name placed inside the base path. */
  lemma AlbumPathShape(cwd: string, base: string, show: ShowMeta)
    requires PathJoin(cwd, base) != [] && !EndsWith(PathJoin(cwd, base), "/")
    ensures AlbumPath(cwd, base, show) == PathJoin(cwd, base) + "/" + FolderName(show)
  {
    FolderNameSafe(show);
    var f := FolderName(show);
    assert !StartsWith(f, "/") by {
      assert !Unsafe(f[0]);
    }
  }

  /** A folder placed inside any directory path ends with the folder's
      closing bracket: it is never empty and has no trailing slash. */
  lemma FolderPathEnds(dir: string, show: ShowMeta)
    ensures EndsWith(PathJoin(dir, FolderName(show)), "]")
    ensures PathJoin(dir, FolderName(show)) != [] && !EndsWith(PathJoin(dir, FolderName(show)), "/")
  {
    FolderNameSafe(show);
    EndsWithTrans(PathJoin(dir, FolderName(show)), FolderName(show), "]");
    BracketNotSlash(PathJoin(dir, FolderName(show)));
  }

  /** The cover sits inside the album path, so it is never the album path. */
  lemma CoverIsNotAlbum(albumPath: string)
    ensures PathJoin(albumPath, "cover.png") != albumPath
  {
    assert !StartsWith("cover.png", "/") by {
      assert "cover.png"[..1][0] == 'c';
    }
    PathJoinLonger(albumPath, "cover.png");
  }

  /** The body of `create_dirs` once the album path is known: make the
      directory when it is missing and write the cover image, whose bytes
      are given, to `cover.png` inside it. When the album path is a regular
      file, `os.makedirs` or the `open` of the cover raises, and when
      `cover.png` is a directory its `open` raises (`ok` is false); then
      nothing changes. */
  method PrepareAlbum(disk: Disk, albumPath: string, image: seq<bv8>) returns (coverPath: string, ok: bool)
    requires disk.Valid()
    modifies disk
    ensures disk.Valid()
    ensures coverPath == PathJoin(albumPath, "cover.png")
    ensures ok <==> !old(disk.NonDirectory(albumPath)) && coverPath !in old(disk.dirs)
    ensures old(disk.NonDirectory(albumPath)) ==> disk.files == old(disk.files) && disk.dirs == old(disk.dirs)
    ensures !old(disk.NonDirectory(albumPath)) ==>
      var made := if old(disk.Present(albumPath)) then {} else {albumPath};
      disk.files == old(disk.files) + made + (if ok then {coverPath} else {}) && disk.dirs == old(disk.dirs) + made
    ensures !EndsWith(albumPath, "/") ==>
      (ok <==> !(albumPath in old(disk.files) && albumPath !in old(disk.dirs)) && coverPath !in old(disk.dirs)) &&
      disk.files == old(disk.files) + {albumPath} + (if ok then {coverPath} else {}) &&
      disk.dirs == old(disk.dirs) + (if albumPath in old(disk.files) then {} else {albumPath})
    ensures disk.contents == if ok then old(disk.contents)[coverPath := Binary(image)] else old(disk.contents)
  {
    if !EndsWith(albumPath, "/") {
      disk.PlainPathStatus(albumPath);
    }
    var present := disk.Exists(albumPath);
    if !present {
      ok := disk.MakeDirs(albumPath);
      if !ok {
        return PathJoin(albumPath, "cover.png"), false;
      }
      assert !disk.NonDirectory(albumPath);
    }
    ghost var made := disk.files;
    assert made == old(disk.files) + (if present then {} else {albumPath});
    CoverIsNotAlbum(albumPath);
    coverPath, ok := disk.WriteIn(albumPath, "cover.png", Binary(image));
    assert disk.files == made + (if ok then {coverPath} else {});
  }

  /** `create_dirs`. It raises (`ok` is false) exactly when the album path
      is an existing regular file or `cover.png` inside it is an existing
      directory; the album directory is made in either case unless a path of
      that name exists, and the cover is written only when `ok`. */
  method CreateDirs(disk: Disk, cwd: string, base: string, show: ShowMeta, image: seq<bv8>)
    returns (albumPath: string, coverPath: string, ok: bool)
    requires disk.Valid()
    modifies disk
    ensures disk.Valid()
    ensures albumPath == AlbumPath(cwd, base, show) && coverPath == PathJoin(albumPath, "cover.png")
    ensures ok <==> !(albumPath in old(disk.files) && albumPath !in old(disk.dirs)) && coverPath !in old(disk.dirs)
    ensures disk.files == old(disk.files) + {albumPath} + (if ok then {coverPath} else {})
    ensures disk.dirs == old(disk.dirs) + (if albumPath in old(disk.files) then {} else {albumPath})
    ensures disk.contents == if ok then old(disk.contents)[coverPath := Binary(image)] else old(disk.contents)
  {
    albumPath := AlbumPath(cwd, base, show);
    FolderPathEnds(PathJoin(cwd, base), show);
    assert !EndsWith(albumPath, "/");
    coverPath, ok := PrepareAlbum(disk, albumPath, image);
  }

  const Quality := "128kb.m3u8"

  /** `hls_url.strip()[:-5] + "128kb.m3u8"`: the last five characters of the
      stripped URL are replaced by the 128 kb/s playlist name. */
  function StreamUrl(hlsUrl: string): (r: string)
    ensures EndsWith(r, Quality)
    ensures |r| == (if |Strip(hlsUrl)| > 5 then |Strip(hlsUrl)| - 5 else 0) + |Quality|
    ensures r[..|r| - |Quality|] == Strip(hlsUrl)[..|r| - |Quality|]
  {
    DropLast(Strip(hlsUrl), 5) + Quality
  }

  /** On a URL without surrounding whitespace, the rewrite swaps whatever
      five characters end it for the playlist name. */
  lemma StreamUrlSwapsSuffix(stem: string, suffix: string)
    requires |suffix| == 5 && Strip(stem + suffix) == stem + suffix
    ensures StreamUrl(stem + suffix) == stem + Quality
  {
    assert (stem + suffix)[..|stem|] == stem;
  }

  /** One entry of `tasks`: the `epMeta` dict and the paths `download` gets. */
  datatype Task = Task(meta: EpMeta, trackPath: string, srtPath: Option<string>)

  /** `epMeta` for one episode record; `None` when its content block has no
      `hls_url` (a `KeyError` that aborts `downloadAlbum`). */
  function EpisodeMeta(ep: RawEpisode): Option<EpMeta> {
    match ep.content.hlsUrl
    case None => None
    case Some(hls) =>
      Some(EpMeta(SanitiseName(Strip(ep.title)), StreamUrl(hls), Strip(GetOr(ep.content.subtitleUrl, "")),
                  ep.index, ep.seasonNo, Strip(StrOfGet(ep.publishedOn))))
  }

  /** The task of one episode: the track path is the title inside the album
      directory with no extension; the subtitle path only when ripping. */
  function TaskOf(ep: RawEpisode, albumPath: string, ripSubs: bool): Option<Task> {
    match EpisodeMeta(ep)
    case None => None
    case Some(m) =>
      Some(Task(m, PathJoin(albumPath, m.title),
                if ripSubs then Some(PathJoin(albumPath, m.title + ".srt")) else None))
  }

  /** What a task holds: a safe title, the rewritten stream URL, a stripped
      subtitle URL and date, the track path and a subtitle path next to it
      exactly when subtitles are ripped. */
  lemma TaskShape(ep: RawEpisode, albumPath: string, ripSubs: bool)
    ensures TaskOf(ep, albumPath, ripSubs).Some? <==> ep.content.hlsUrl.Some?
    ensures TaskOf(ep, albumPath, ripSubs).Some? ==> var t := TaskOf(ep, albumPath, ripSubs).value;
      t.meta.title == SanitiseName(Strip(ep.title)) &&
      (forall i :: 0 <= i < |t.meta.title| ==> !Unsafe(t.meta.title[i])) &&
      t.meta.hls == StreamUrl(ep.content.hlsUrl.value) && EndsWith(t.meta.hls, Quality) &&
      t.meta.srt == Strip(GetOr(ep.content.subtitleUrl, "")) &&
      t.meta.date == (if ep.publishedOn.None? then "None" else Strip(ep.publishedOn.value)) &&
      t.meta.epNo == ep.index && t.meta.seasonNo == ep.seasonNo &&
      t.trackPath == PathJoin(albumPath, t.meta.title) && EndsWith(t.trackPath, t.meta.title) &&
      (t.srtPath.Some? <==> ripSubs) &&
      (ripSubs ==> t.srtPath.value == PathJoin(albumPath, t.meta.title + ".srt"))
  {
    if ep.content.hlsUrl.Some? {
      SanitiseIsSafe(Strip(ep.title));
      StripNone();
    }
  }

  lemma StripNone()
    ensures Strip("None") == "None"
  {
  }

  /** The `for ep in episodes` loop of `downloadAlbum`: one task per
      episode, in catalog order, or `None` when a record lacks `hls_url`. */
  method BuildTasks(episodes: seq<RawEpisode>, albumPath: string, ripSubs: bool) returns (tasks: Option<seq<Task>>)
    ensures tasks.Some? <==> forall i :: 0 <= i < |episodes| ==> episodes[i].content.hlsUrl.Some?
    ensures tasks.Some? ==> (|tasks.value| == |episodes| &&
      forall i :: 0 <= i < |episodes| ==> TaskOf(episodes[i], albumPath, ripSubs) == Some(tasks.value[i]))
  {
    var acc: seq<Task> := [];
    for i := 0 to |episodes|
      invariant |acc| == i
      invariant forall j :: 0 <= j < i ==> TaskOf(episodes[j], albumPath, ripSubs) == Some(acc[j])
    {
      var t := TaskOf(episodes[i], albumPath, ripSubs);
      if t.None? {
        return None;
      }
      acc := acc + [t.value];
    }
    tasks := Some(acc);
  }

  /** `downloadAlbum` up to the hand-off to `divide_and_run`: paginate,
      build the tasks, split them into `batchSize` batches. `None` when the
      source raises: the pages run out, a record lacks `hls_url`, or the
      batch size is zero. */
  method PlanAlbum(pages: seq<Page<RawEpisode>>, albumPath: string, ripSubs: bool, batchSize: int)
    returns (requested: seq<nat>, batches: Option<seq<seq<Task>>>)
    ensures StopIndex(pages).Some? ==> requested == PageNumbers(StopIndex(pages).value + 1)
    ensures StopIndex(pages).None? ==> batches.None? && requested == PageNumbers(|pages| + 1)
    ensures batches.Some? ==> StopIndex(pages).Some? && batchSize != 0
    ensures batches.Some? && batchSize < 0 ==> batches.value == []
    ensures batches.Some? && batchSize > 0 ==>
      var eps := EpisodesOf(pages[..StopIndex(pages).value + 1]);
      |batches.value| == batchSize && |Flatten(batches.value)| == |eps| &&
      forall i :: 0 <= i < |eps| ==> TaskOf(eps[i], albumPath, ripSubs) == Some(Flatten(batches.value)[i])
    ensures batches.Some? && batchSize > 0 ==> batches.value == Divide(Flatten(batches.value), batchSize)
    ensures StopIndex(pages).Some? ==>
      var eps := EpisodesOf(pages[..StopIndex(pages).value + 1]);
      (batches.Some? <==> batchSize != 0 && forall i :: 0 <= i < |eps| ==> eps[i].content.hlsUrl.Some?)
  {
    var episodes, complete;
    episodes, requested, complete := FetchAllPages(pages);
    if !complete {
      return requested, None;
    }
    var tasks := BuildTasks(episodes, albumPath, ripSubs);
    if tasks.None? {
      return requested, None;
    }
    batches := DivideList(tasks.value, batchSize);
  }

  /** Whether `download` fetches and writes the subtitle: it has one and a
      subtitle path was given (`hasLyrics and srtPath`). */
  predicate WantsSubtitle(ep: EpMeta, srtPath: Option<string>) {
    ep.srt != "" && srtPath.Some? && srtPath.value != ""
  }

  /** The subtitle `download` wants to write is an existing directory, so
      its `open` raises `IsADirectoryError`. */
  predicate SubtitleBlocked(ep: EpMeta, srtPath: Option<string>, dirs: set<string>) {
    WantsSubtitle(ep, srtPath) && srtPath.value in dirs
  }

  /** The file contents after the stream tool and the subtitle write. */
  function Staged(before: map<string, FileData>, fetch: Fetch, ep: EpMeta, srtPath: Option<string>, subtitle: string)
    : map<string, FileData>
  {
    var fetched := before + fetch.written;
    if WantsSubtitle(ep, srtPath) then fetched[srtPath.value := TextFile(subtitle)] else fetched
  }

  /** The file `download` tags: yt-dlp's audio extraction appends `.m4a`. */
  function MediaPath(path: string): string {
    path + ".m4a"
  }

  /** The tag assignments of `download`: the standard atoms, the encoder
      atom popped when present, the information atoms with the age rating,
      the credit roles and the cover. */
  method TagAtoms(existing: map<string, Mp4Value>, show: ShowMeta, ep: EpMeta, cover: seq<bv8>)
    returns (atoms: map<string, Mp4Value>)
    ensures atoms == Mp4Atoms(existing, show, ep, cover, true)
  {
    atoms := AssignStandard(existing, show, ep);
    if EncoderKey in atoms {
      atoms := atoms - {EncoderKey};
    }
    assert atoms == (existing - {EncoderKey}) + StandardAtoms(show, ep) by {
      EncoderNotStandard(show, ep);
    }
    atoms := AssignInfo(atoms, show, ep, true);
    atoms := AssignCredits(atoms, show.credits);
    atoms := atoms[CoverKey := Covers(cover)];
  }

  /** With the pop guarded, tagging the tagged block again gives the same
      block. */
  method RetagIsStable(existing: map<string, Mp4Value>, show: ShowMeta, ep: EpMeta, cover: seq<bv8>)
    returns (first: map<string, Mp4Value>, second: map<string, Mp4Value>)
    ensures first == Mp4Atoms(existing, show, ep, cover, true)
    ensures second == first
  {
    first := TagAtoms(existing, show, ep, cover);
    second := TagAtoms(first, show, ep, cover);
    Mp4AtomsIdempotent(existing, show, ep, cover, true);
  }

  /** `download(episodeMetadata, path, srtPath)`. An existing `path` returns
      at once. Otherwise the stream tool runs (its failures are swallowed by
      `hls_download`) and the subtitle is fetched and written when wanted;
      opening the subtitle raises when it is a directory. Then
      `path + ".m4a"` is opened and tagged; opening it raises when it is a
      directory or not an MP4 file. `requests` lists the URLs fetched, in
      order. */
  method Download(disk: Disk, show: ShowMeta, ep: EpMeta, path: string, srtPath: Option<string>,
                  cover: seq<bv8>, fetch: Fetch, subtitle: string)
    returns (outcome: Outcome, requests: seq<string>)
    requires disk.Valid()
    modifies disk
    ensures disk.Valid() && disk.dirs == old(disk.dirs)
    ensures old(disk.Present(path)) ==>
      outcome == Skipped && requests == [] && disk.files == old(disk.files) && disk.contents == old(disk.contents)
    ensures !old(disk.Present(path)) ==>
      outcome != Skipped &&
      requests == [ep.hls] + (if WantsSubtitle(ep, srtPath) then [ep.srt] else [])
    ensures !old(disk.Present(path)) && SubtitleBlocked(ep, srtPath, old(disk.dirs)) ==>
      outcome == Raised(PathIsDirectory) &&
      disk.files == old(disk.files) + fetch.written.Keys && disk.contents == old(disk.contents) + fetch.written
    ensures !old(disk.Present(path)) && !SubtitleBlocked(ep, srtPath, old(disk.dirs)) ==>
      disk.files == old(disk.files) + fetch.written.Keys + (if WantsSubtitle(ep, srtPath) then {srtPath.value} else {})
    ensures !old(disk.Present(path)) && !SubtitleBlocked(ep, srtPath, old(disk.dirs)) ==>
      var staged := Staged(old(disk.contents), fetch, ep, srtPath, subtitle);
      var media := MediaPath(path);
      (outcome == Completed <==> media in staged && staged[media].Mp4File? && media !in old(disk.dirs)) &&
      (outcome == Completed ==>
        disk.contents == staged[media := Mp4File(Mp4Atoms(staged[media].atoms, show, ep, cover, true))]) &&
      (outcome != Completed ==> outcome == Raised(NotMp4) && disk.contents == staged)
  {
    var present := disk.Exists(path);
    if present {
      return Skipped, [];
    }
    requests := [ep.hls];
    disk.ApplyFetch(fetch);
    if WantsSubtitle(ep, srtPath) {
      requests := requests + [ep.srt];
      var written := disk.Write(srtPath.value, TextFile(subtitle));
      if !written {
        return Raised(PathIsDirectory), requests;
      }
    }
    var media := MediaPath(path);
    if !(media in disk.contents && disk.contents[media].Mp4File? && media !in disk.dirs) {
      return Raised(NotMp4), requests;
    }
    var atoms := TagAtoms(disk.contents[media].atoms, show, ep, cover);
    var saved := disk.Write(media, Mp4File(atoms));
    outcome := Completed;
  }

  /** An episode whose title sanitises to nothing has the track path
      `albumPath + "/"`, which exists as soon as the album directory does:
      `download` returns at once and the episode is never fetched. */
  method UntitledEpisodeSkipped(disk: Disk, cwd: string, base: string, show: ShowMeta, image: seq<bv8>,
                                raw: RawEpisode, ripSubs: bool, fetch: Fetch, subtitle: string)
    returns (task: Task, outcome: Outcome, requests: seq<string>)
    requires disk.Valid()
    requires AlbumPath(cwd, base, show) in disk.files ==> AlbumPath(cwd, base, show) in disk.dirs
    requires PathJoin(AlbumPath(cwd, base, show), "cover.png") !in disk.dirs
    requires raw.content.hlsUrl.Some? && SanitiseName(Strip(raw.title)) == []
    modifies disk
    ensures task.trackPath == AlbumPath(cwd, base, show) + "/"
    ensures outcome == Skipped && requests == []
  {
    FolderPathEnds(PathJoin(cwd, base), show);
    var albumPath, coverPath, ok := CreateDirs(disk, cwd, base, show, image);
    assert ok && albumPath in disk.dirs;
    TaskShape(raw, albumPath, ripSubs);
    task := TaskOf(raw, albumPath, ripSubs).value;
    FolderPathEnds(PathJoin(cwd, base), show);
    SlashedDirectory(albumPath);
    assert disk.Present(task.trackPath);
    outcome, requests := Download(disk, show, task.meta, task.trackPath, task.srtPath, image, fetch, subtitle);
  }

  /** The existence check looks at `path`, but the file the stream tool
      produces and `download` tags is `path + ".m4a"`: unless the tool also
      leaves `path` itself, a second run on the same disk, which still lacks
      `path`, repeats every fetch instead of skipping. */
  method RerunRepeatsDownload(existing: set<string>, directories: set<string>, show: ShowMeta, ep: EpMeta,
                              path: string, srtPath: Option<string>, cover: seq<bv8>, fetch: Fetch, subtitle: string)
    returns (first: Outcome, second: Outcome, firstRequests: seq<string>, secondRequests: seq<string>)
    requires directories <= existing
    requires path !in existing && !(EndsWith(path, "/") && RStripChar(path, '/') in directories)
    requires path !in fetch.written
    requires srtPath.None? || srtPath.value != path
    ensures first != Skipped && second != Skipped
    ensures secondRequests == firstRequests && |firstRequests| >= 1 && firstRequests[0] == ep.hls
  {
    var disk := new Disk(existing, directories);
    first, firstRequests := Download(disk, show, ep, path, srtPath, cover, fetch, subtitle);
    second, secondRequests := Download(disk, show, ep, path, srtPath, cover, fetch, subtitle);
  }
}
