/** `kuku.py`: the synchronous downloader that runs ffmpeg itself. It
    joins the credit names, prefers the premium stream, numbers the track
    files, aborts a track when ffmpeg fails and insists on an encoder atom. */
module KukuSync {
  import opened Options
  import opened Text
  import opened Seqs
  import opened Sanitise
  import opened Pagination
  import opened Catalog
  import opened Tags
  import opened Tagger
  import opened Storage
  import KukuDl

  /** The credits loop of `__init__`: every role of the show's `credits`
      object gets its people's full names joined by ", ", in listed order.
      The roles are the keys of a JSON object, so they are distinct and
      each dict assignment adds a new entry at the end. */
  method JoinCredits(roles: seq<(string, seq<string>)>) returns (credits: seq<(string, string)>)
    requires forall i, j :: 0 <= i < j < |roles| ==> roles[i].0 != roles[j].0
    ensures |credits| == |roles|
    ensures forall i :: 0 <= i < |roles| ==> credits[i] == (roles[i].0, Join(", ", roles[i].1))
  {
    credits := [];
    for i := 0 to |roles|
      invariant |credits| == i
      invariant forall j :: 0 <= j < i ==> credits[j] == (roles[j].0, Join(", ", roles[j].1))
    {
      credits := credits + [(roles[i].0, Join(", ", roles[i].1))];
    }
  }

  const PlaylistSuffix := "/128kb.m3u8"

  /** The URL fix of `downloadAndTag`: a URL already ending in `m3u8` is
      kept; otherwise its trailing slashes go and `/128kb.m3u8` is added. */
  function NormaliseAudioUrl(url: string): (r: string)
    ensures EndsWith(r, "m3u8")
    ensures EndsWith(url, "m3u8") ==> r == url
    ensures !EndsWith(url, "m3u8") ==> r == RStripChar(url, '/') + PlaylistSuffix
  {
    if EndsWith(url, "m3u8") then url
    else if EndsWith(url, "/") then RStripChar(url, '/') + PlaylistSuffix
    else url + PlaylistSuffix
  }

  /** Normalising twice is normalising once. */
  lemma NormaliseIdempotent(url: string)
    ensures NormaliseAudioUrl(NormaliseAudioUrl(url)) == NormaliseAudioUrl(url)
  {
  }

  /** `premium_audio_url or hls_url`, stripped: the premium stream when its
      URL is a non-empty string, else the HLS one, else "". */
  function AudioUrl(c: Content): string {
    var premium := GetOr(c.premiumAudioUrl, "");
    Strip(if premium != "" then premium else GetOr(c.hlsUrl, ""))
  }

  /** Which stream is chosen: the premium URL whenever it is present and
      non-empty, the HLS URL otherwise. */
  lemma AudioUrlChoice(c: Content)
    ensures c.premiumAudioUrl.Some? && c.premiumAudioUrl.value != "" ==> AudioUrl(c) == Strip(c.premiumAudioUrl.value)
    ensures (c.premiumAudioUrl.None? || c.premiumAudioUrl.value == "") && c.hlsUrl.Some? ==> AudioUrl(c) == Strip(c.hlsUrl.value)
    ensures (c.premiumAudioUrl.None? || c.premiumAudioUrl.value == "") && c.hlsUrl.None? ==> AudioUrl(c) == ""
  {
  }

  /** The choice is made before stripping: a premium URL of whitespace only
      hides a usable HLS URL, and the episode is skipped. */
  lemma BlankPremiumHidesHls(c: Content)
    requires c.premiumAudioUrl.Some? && c.premiumAudioUrl.value != []
    requires forall i :: 0 <= i < |c.premiumAudioUrl.value| ==> IsSpace(c.premiumAudioUrl.value[i])
    ensures AudioUrl(c) == ""
  {
    StripAllSpace(c.premiumAudioUrl.value);
  }

  /** `os.path.join("Downloads", lang, type, sanitiseName(folderName))`; the
      folder name is built exactly as in `kuku/dl.py`. */
  function AlbumPath(show: ShowMeta): string {
    PathJoin(PathJoin(PathJoin("Downloads", show.lang), show.contentType), KukuDl.FolderName(show))
  }

  /** With a language and a type that are non-empty path components, the
      album is `Downloads/<lang>/<type>/<folder>`. */
  lemma AlbumPathShape(show: ShowMeta)
    requires show.lang != [] && '/' !in show.lang
    requires show.contentType != [] && '/' !in show.contentType
    ensures AlbumPath(show) == "Downloads/" + show.lang + "/" + show.contentType + "/" + KukuDl.FolderName(show)
  {
    NoSlashNotAbsolute(show.lang);
    NoSlashNotAbsolute(show.contentType);
    NoSlashNotEndsInSlash(show.lang);
    NoSlashNotEndsInSlash(show.contentType);
    var d := "Downloads/" + show.lang;
    assert PathJoin("Downloads", show.lang) == d;
    assert !EndsWith(d, "/") by {
      assert d[|d| - 1] == show.lang[|show.lang| - 1];
    }
    var e := d + "/" + show.contentType;
    assert PathJoin(d, show.contentType) == e;
    assert !EndsWith(e, "/") by {
      assert e[|e| - 1] == show.contentType[|show.contentType| - 1];
    }
    KukuDl.FolderNameSafe(show);
    var f := KukuDl.FolderName(show);
    assert !StartsWith(f, "/") by {
      assert !Unsafe(f[0]);
    }
  }

  /** The album path ends with the folder's closing bracket. */
  lemma AlbumPathEnds(show: ShowMeta)
    ensures AlbumPath(show) != [] && !EndsWith(AlbumPath(show), "/")
  {
    KukuDl.FolderPathEnds(PathJoin(PathJoin("Downloads", show.lang), show.contentType), show);
  }

  lemma NoSlashNotAbsolute(s: string)
    requires '/' !in s
    ensures !StartsWith(s, "/")
  {
    if |s| >= 1 {
      assert s[0] != '/';
    }
  }

  lemma NoSlashNotEndsInSlash(s: string)
    requires '/' !in s
    ensures !EndsWith(s, "/")
  {
    if |s| >= 1 {
      assert s[|s| - 1] != '/';
    }
  }

  /** `f"{str(index).zfill(2)}. {title}"`: the file name without extension. */
  function TrackStem(index: int, title: string): string {
    ZFill(IntToString(index), 2) + ". " + title
  }

  /** The track file name: the stem with `.m4a`. */
  function TrackName(index: int, title: string): string {
    TrackStem(index, title) + ".m4a"
  }

  /** The subtitle file name: the stem with `.srt`. */
  function SubtitleName(index: int, title: string): string {
    TrackStem(index, title) + ".srt"
  }

  /** The stem starts with the episode number padded to two digits: "07. "
      for episode 7, the plain number from 10 on. */
  lemma TrackStemNumber(index: int, title: string)
    ensures 0 <= index < 10 ==> TrackStem(index, title) == ['0', Digit(index)] + ". " + title
    ensures index >= 10 ==> TrackStem(index, title) == NatToString(index) + ". " + title
  {
    if 0 <= index < 10 {
      ZFillOneDigit(index);
    } else if index >= 10 {
      ZFillManyDigits(index);
    }
  }

  /** The padded number holds no slash, whatever the index. */
  lemma PaddedNumberNoSlash(index: int)
    ensures '/' !in ZFill(IntToString(index), 2)
  {
    var s := IntToString(index);
    if index >= 0 {
      assert forall i :: 0 <= i < |s| ==> IsDigit(s[i]);
    } else {
      var n := NatToString(-index);
      assert s == "-" + n;
      assert forall i :: 0 <= i < |n| ==> IsDigit(n[i]);
      assert forall i :: 0 <= i < |s| ==> s[i] == '-' || IsDigit(s[i]);
    }
    var z := ZFill(s, 2);
    assert forall i :: 0 <= i < |z| ==> z[i] == '0' || z[i] == '-' || IsDigit(z[i]);
  }

  /** A job of `downAlbum`: the `epMeta` dict and the two paths. */
  datatype Job = Job(meta: EpMeta, trackPath: string, srtPath: string)

  /** The body of the `for ep in episodes` loop up to the call: `None` when
      the audio URL is empty and the episode is skipped. */
  function JobOf(ep: RawEpisode, albumPath: string): Option<Job> {
    var url := AudioUrl(ep.content);
    if url == "" then None
    else
      var title := SanitiseName(Strip(ep.title));
      Some(Job(EpMeta(title, url, Strip(GetOr(ep.content.subtitleUrl, "")), ep.index, ep.seasonNo,
                      Strip(StrOfGet(ep.publishedOn))),
               PathJoin(albumPath, TrackName(ep.index, title)), PathJoin(albumPath, SubtitleName(ep.index, title))))
  }

  /** `JobOf` for a fixed album directory. */
  function JobFn(albumPath: string): RawEpisode -> Option<Job> {
    ep => JobOf(ep, albumPath)
  }

  /** The jobs of a list of episodes, in catalog order, skipped ones left out. */
  function Jobs(episodes: seq<RawEpisode>, albumPath: string): seq<Job> {
    FilterMap(episodes, JobFn(albumPath))
  }

  /** An episode is kept exactly when its audio URL is non-empty; the two
      paths share the stem, sit directly in the album directory and differ
      only in the extension. */
  lemma JobShape(ep: RawEpisode, albumPath: string)
    requires albumPath != [] && !EndsWith(albumPath, "/")
    ensures JobOf(ep, albumPath).Some? <==> AudioUrl(ep.content) != ""
    ensures JobOf(ep, albumPath).Some? ==> var j := JobOf(ep, albumPath).value;
      var stem := TrackStem(ep.index, j.meta.title);
      j.meta.hls == AudioUrl(ep.content) &&
      j.trackPath == albumPath + "/" + stem + ".m4a" &&
      j.srtPath == albumPath + "/" + stem + ".srt" &&
      Dirname(j.trackPath) == albumPath && Dirname(j.srtPath) == albumPath
  {
    if AudioUrl(ep.content) != "" {
      var title := SanitiseName(Strip(ep.title));
      SanitiseIsSafe(Strip(ep.title));
      SafeHasNoSlash(title);
      EpisodeFile(albumPath, ep.index, title, ".m4a");
      EpisodeFile(albumPath, ep.index, title, ".srt");
    }
  }

  lemma SafeHasNoSlash(s: string)
    requires forall i :: 0 <= i < |s| ==> !Unsafe(s[i])
    ensures '/' !in s
  {
  }

  /** A numbered episode file sits directly in the album directory. */
  lemma EpisodeFile(dir: string, index: int, title: string, ext: string)
    requires dir != [] && !EndsWith(dir, "/") && '/' !in title && '/' !in ext
    ensures PathJoin(dir, TrackStem(index, title) + ext) == dir + "/" + TrackStem(index, title) + ext
    ensures Dirname(PathJoin(dir, TrackStem(index, title) + ext)) == dir
  {
    PaddedNumberNoSlash(index);
    FileInDirectory(dir, TrackStem(index, title) + ext);
  }

  lemma FileInDirectory(dir: string, name: string)
    requires dir != [] && !EndsWith(dir, "/") && '/' !in name
    ensures PathJoin(dir, name) == dir + "/" + name
    ensures Dirname(PathJoin(dir, name)) == dir
  {
    NoSlashNotAbsolute(name);
    DirnameOfJoin(dir, name);
  }

  /** Jobs of two runs of episodes are the two job lists one after the other. */
  lemma JobsConcat(a: seq<RawEpisode>, b: seq<RawEpisode>, albumPath: string)
    ensures Jobs(a + b, albumPath) == Jobs(a, albumPath) + Jobs(b, albumPath)
  {
    FilterMapConcat(a, b, JobFn(albumPath));
  }

  /** When no episode is skipped there is one job per episode, in order. */
  lemma JobsAllKept(episodes: seq<RawEpisode>, albumPath: string)
    requires forall i :: 0 <= i < |episodes| ==> AudioUrl(episodes[i].content) != ""
    ensures |Jobs(episodes, albumPath)| == |episodes|
    ensures forall i :: 0 <= i < |episodes| ==> Some(Jobs(episodes, albumPath)[i]) == JobOf(episodes[i], albumPath)
  {
    var f := JobFn(albumPath);
    forall i | 0 <= i < |episodes|
      ensures f(episodes[i]).Some?
    {
      var _ := JobKept(episodes[i], albumPath);
    }
    FilterMapAllKept(episodes, f);
  }

  /** The job of an episode with an audio URL. */
  lemma JobKept(ep: RawEpisode, albumPath: string) returns (j: Job)
    requires AudioUrl(ep.content) != ""
    ensures JobOf(ep, albumPath) == Some(j)
  {
    j := JobOf(ep, albumPath).value;
  }

  /** Episodes without an audio URL contribute nothing. */
  lemma JobsAllSkipped(episodes: seq<RawEpisode>, albumPath: string)
    requires forall i :: 0 <= i < |episodes| ==> AudioUrl(episodes[i].content) == ""
    ensures Jobs(episodes, albumPath) == []
  {
    FilterMapNoneKept(episodes, JobFn(albumPath));
  }

  /** Every job is the job of some episode. */
  lemma JobsFromEpisodes(episodes: seq<RawEpisode>, albumPath: string, k: nat)
    requires k < |Jobs(episodes, albumPath)|
    ensures exists i :: 0 <= i < |episodes| && JobOf(episodes[i], albumPath) == Some(Jobs(episodes, albumPath)[k])
  {
    FilterMapFrom(episodes, JobFn(albumPath), k);
  }

  /** The `for ep in episodes` loop with its `continue` on an empty URL. */
  method PlanTracks(episodes: seq<RawEpisode>, albumPath: string) returns (jobs: seq<Job>)
    ensures jobs == Jobs(episodes, albumPath)
  {
    var jobOf := JobFn(albumPath);
    jobs := [];
    for i := 0 to |episodes|
      invariant jobs == FilterMap(episodes[..i], jobOf)
    {
      FilterMapStep(episodes, i, jobOf);
      var job := jobOf(episodes[i]);
      if job.None? {
        continue;
      }
      jobs := jobs + [job.value];
    }
    assert episodes[..|episodes|] == episodes;
  }

  /** The tag assignments of `downloadAndTag`. `tag.pop("©too")` is not
      guarded: a file without an encoder atom raises `KeyError` (`None`).
      The age-rating atom is written only for a non-empty rating. */
  method TagAtoms(existing: map<string, Mp4Value>, show: ShowMeta, ep: EpMeta, cover: seq<bv8>)
    returns (atoms: Option<map<string, Mp4Value>>)
    ensures atoms.None? <==> EncoderKey !in existing
    ensures atoms.Some? ==> atoms.value == Mp4Atoms(existing, show, ep, cover, show.ageRating != "")
  {
    var tag := AssignStandard(existing, show, ep);
    EncoderNotStandard(show, ep);
    if EncoderKey !in tag {
      return None;
    }
    tag := tag - {EncoderKey};
    assert tag == (existing - {EncoderKey}) + StandardAtoms(show, ep);
    tag := AssignInfo(tag, show, ep, show.ageRating != "");
    tag := AssignCredits(tag, show.credits);
    tag := tag[CoverKey := Covers(cover)];
    atoms := Some(tag);
  }

  /** Because the pop is unguarded, tagging is not repeatable: the first
      pass removes the encoder atom, so tagging its result again raises. */
  method RetagRaises(existing: map<string, Mp4Value>, show: ShowMeta, ep: EpMeta, cover: seq<bv8>)
    returns (first: Option<map<string, Mp4Value>>, second: Option<map<string, Mp4Value>>)
    requires EncoderKey in existing
    ensures first == Some(Mp4Atoms(existing, show, ep, cover, show.ageRating != ""))
    ensures second.None?
  {
    first := TagAtoms(existing, show, ep, cover);
    Mp4AtomsFacts(existing, show, ep, cover, show.ageRating != "");
    second := TagAtoms(first.value, show, ep, cover);
  }

  /** The file contents after ffmpeg and the subtitle write. */
  function Staged(before: map<string, FileData>, fetch: Fetch, ep: EpMeta, srtPath: string, subtitle: string)
    : map<string, FileData>
  {
    var fetched := before + fetch.written;
    if ep.srt != "" then fetched[srtPath := TextFile(subtitle)] else fetched
  }

  /** `downloadAndTag` gets past its existence check and `os.makedirs`:
      `path` is missing and its parent directory can be made. */
  predicate Proceeds(disk: Disk, path: string)
    reads disk
  {
    !disk.Present(path) && Dirname(path) != [] && !disk.NonDirectory(Dirname(path))
  }

  /** `downloadAndTag(episodeMetadata, path, srtPath, coverPath)`. An
      existing `path` returns at once. Otherwise the parent directory is made
      (`os.makedirs("")` raises), ffmpeg fetches the normalised URL, and a
      non-zero exit code returns before any subtitle or tag write. Then the
      subtitle is fetched and written when there is one (its `open` raises
      when it is a directory), and `path` itself is opened and tagged, which
      raises when it is a directory, not an MP4 file, or has no encoder
      atom. A parent directory that is a regular file makes `os.makedirs`
      raise before ffmpeg runs. `requests` lists the URLs fetched, in
      order. */
  method DownloadAndTag(disk: Disk, show: ShowMeta, ep: EpMeta, path: string, srtPath: string,
                        cover: seq<bv8>, fetch: Fetch, subtitle: string)
    returns (outcome: Outcome, requests: seq<string>)
    requires disk.Valid()
    modifies disk
    ensures disk.Valid() && old(disk.files) <= disk.files && old(disk.dirs) <= disk.dirs
    ensures disk.dirs == old(disk.dirs) +
      (if old(Proceeds(disk, path))
       then {Dirname(path)} else {})
    ensures old(disk.Present(path)) ==>
      outcome == Skipped && requests == [] && disk.files == old(disk.files) && disk.contents == old(disk.contents)
    ensures !old(disk.Present(path)) && Dirname(path) == [] ==>
      outcome == Raised(NoDirectory) && requests == [] &&
      disk.files == old(disk.files) && disk.contents == old(disk.contents)
    ensures !old(disk.Present(path)) && Dirname(path) != [] && old(disk.NonDirectory(Dirname(path))) ==>
      outcome == Raised(PathIsFile) && requests == [] &&
      disk.files == old(disk.files) && disk.contents == old(disk.contents)
    ensures old(Proceeds(disk, path)) && fetch.code != 0 ==>
      outcome == Failed(StreamFailed) && requests == [NormaliseAudioUrl(ep.hls)] &&
      disk.files == old(disk.files) + {Dirname(path)} + fetch.written.Keys &&
      disk.contents == old(disk.contents) + fetch.written
    ensures old(Proceeds(disk, path)) && fetch.code == 0 ==>
      requests == [NormaliseAudioUrl(ep.hls)] + (if ep.srt != "" then [ep.srt] else [])
    ensures old(Proceeds(disk, path)) && fetch.code == 0 && ep.srt != "" && srtPath in old(disk.dirs) + {Dirname(path)} ==>
      outcome == Raised(PathIsDirectory) &&
      disk.files == old(disk.files) + {Dirname(path)} + fetch.written.Keys &&
      disk.contents == old(disk.contents) + fetch.written
    ensures old(Proceeds(disk, path)) && fetch.code == 0 && !(ep.srt != "" && srtPath in old(disk.dirs) + {Dirname(path)}) ==>
      var staged := Staged(old(disk.contents), fetch, ep, srtPath, subtitle);
      var isMp4 := path in staged && staged[path].Mp4File? && path !in old(disk.dirs) + {Dirname(path)};
      disk.files == old(disk.files) + {Dirname(path)} + fetch.written.Keys + (if ep.srt != "" then {srtPath} else {}) &&
      (outcome == Completed <==> isMp4 && EncoderKey in staged[path].atoms) &&
      (outcome == Completed ==>
        disk.contents == staged[path := Mp4File(Mp4Atoms(staged[path].atoms, show, ep, cover, show.ageRating != ""))]) &&
      (outcome != Completed ==> (disk.contents == staged &&
        (outcome == Raised(NotMp4) <==> !isMp4) &&
        (outcome == Raised(NoEncoderAtom) <==> isMp4 && EncoderKey !in staged[path].atoms)))
  {
    var present := disk.Exists(path);
    if present {
      return Skipped, [];
    }
    var dir := Dirname(path);
    if dir == [] {
      return Raised(NoDirectory), [];
    }
    var made := disk.MakeDirs(dir);
    if !made {
      return Raised(PathIsFile), [];
    }
    var audioUrl := NormaliseAudioUrl(ep.hls);
    requests := [audioUrl];
    disk.ApplyFetch(fetch);
    if fetch.code != 0 {
      return Failed(StreamFailed), requests;
    }
    ghost var fetchedFiles := disk.files;
    if ep.srt != "" {
      requests := requests + [ep.srt];
      var written := disk.Write(srtPath, TextFile(subtitle));
      if !written {
        return Raised(PathIsDirectory), requests;
      }
    }
    ghost var stagedFiles := disk.files;
    assert stagedFiles == fetchedFiles + (if ep.srt != "" then {srtPath} else {});
    if !(path in disk.contents && disk.contents[path].Mp4File? && path !in disk.dirs) {
      return Raised(NotMp4), requests;
    }
    var atoms := TagAtoms(disk.contents[path].atoms, show, ep, cover);
    if atoms.None? {
      return Raised(NoEncoderAtom), requests;
    }
    var saved := disk.Write(path, Mp4File(atoms.value));
    assert disk.files == stagedFiles;
    outcome := Completed;
  }

  /** The first part of `downAlbum` once the album path is known:
      `os.makedirs(albumPath, exist_ok=True)`, which raises when the album
      path is a regular file, and the cover written inside it, whose `open`
      raises when `cover.png` is a directory. The album path is the one
      `AlbumPath` builds, which `AlbumPathEnds` shows is non-empty and has
      no trailing slash. */
  method PrepareDownAlbum(disk: Disk, albumPath: string, image: seq<bv8>)
    returns (coverPath: string, prepared: bool)
    requires disk.Valid() && albumPath != [] && !EndsWith(albumPath, "/")
    modifies disk
    ensures disk.Valid()
    ensures coverPath == PathJoin(albumPath, "cover.png")
    ensures prepared <==> !(albumPath in old(disk.files) && albumPath !in old(disk.dirs)) && coverPath !in old(disk.dirs)
    ensures disk.dirs == old(disk.dirs) + (if albumPath in old(disk.files) then {} else {albumPath})
    ensures prepared ==>
      disk.files == old(disk.files) + {albumPath, coverPath} && disk.contents == old(disk.contents)[coverPath := Binary(image)]
    ensures !prepared ==> disk.files == old(disk.files) + {albumPath} && disk.contents == old(disk.contents)
  {
    coverPath, prepared := KukuDl.PrepareAlbum(disk, albumPath, image);
  }

  /** `downAlbum`: build the album path, make the album directory, write
      the cover, paginate, plan the tracks and run `downloadAndTag` on each
      in turn. The cover each track embeds is the image just written. An
      exception is not caught: an album path that is a regular file raises
      in `os.makedirs`, and a `cover.png` that is a directory raises at its
      `open`, before anything is requested (`prepared` is false); the first
      `Raised` outcome ends the album. `fetchOf(k)` and `subtitleOf(k)` are
      what ffmpeg and the subtitle request give for the `k`-th job. */
  method DownAlbum(disk: Disk, show: ShowMeta, image: seq<bv8>, pages: seq<Page<RawEpisode>>,
                   fetchOf: nat -> Fetch, subtitleOf: nat -> string)
    returns (albumPath: string, coverPath: string, prepared: bool, requested: seq<nat>, jobs: seq<Job>, outcomes: seq<Outcome>)
    requires disk.Valid()
    modifies disk
    ensures disk.Valid()
    ensures albumPath == AlbumPath(show) && coverPath == PathJoin(albumPath, "cover.png")
    ensures prepared <==> !(albumPath in old(disk.files) && albumPath !in old(disk.dirs)) && coverPath !in old(disk.dirs)
    ensures !prepared ==>
      requested == [] && jobs == [] && outcomes == [] &&
      disk.files == old(disk.files) + {albumPath} && disk.contents == old(disk.contents) &&
      disk.dirs == old(disk.dirs) + (if albumPath in old(disk.files) then {} else {albumPath})
    ensures prepared ==> albumPath in disk.dirs && coverPath in disk.files
    ensures prepared ==> Planned(pages, albumPath, requested, jobs)
    ensures StopsAtFirstRaise(jobs, outcomes)
  {
    albumPath := AlbumPath(show);
    AlbumPathEnds(show);
    coverPath, prepared, requested, jobs, outcomes := DownAlbumAt(disk, show, image, pages, albumPath, fetchOf, subtitleOf);
  }

  /** `downAlbum` from the `os.makedirs` call on, at a given album path. */
  method DownAlbumAt(disk: Disk, show: ShowMeta, image: seq<bv8>, pages: seq<Page<RawEpisode>>, albumPath: string,
                     fetchOf: nat -> Fetch, subtitleOf: nat -> string)
    returns (coverPath: string, prepared: bool, requested: seq<nat>, jobs: seq<Job>, outcomes: seq<Outcome>)
    requires disk.Valid() && albumPath != [] && !EndsWith(albumPath, "/")
    modifies disk
    ensures disk.Valid()
    ensures coverPath == PathJoin(albumPath, "cover.png")
    ensures prepared <==> !(albumPath in old(disk.files) && albumPath !in old(disk.dirs)) && coverPath !in old(disk.dirs)
    ensures !prepared ==>
      requested == [] && jobs == [] && outcomes == [] &&
      disk.files == old(disk.files) + {albumPath} && disk.contents == old(disk.contents) &&
      disk.dirs == old(disk.dirs) + (if albumPath in old(disk.files) then {} else {albumPath})
    ensures prepared ==> albumPath in disk.dirs && coverPath in disk.files
    ensures prepared ==> Planned(pages, albumPath, requested, jobs)
    ensures StopsAtFirstRaise(jobs, outcomes)
  {
    coverPath, prepared := PrepareDownAlbum(disk, albumPath, image);
    if prepared {
      requested, jobs := PlanEpisodes(pages, albumPath);
      outcomes := RunJobs(disk, show, jobs, image, fetchOf, subtitleOf);
    } else {
      requested, jobs, outcomes := [], [], [];
    }
  }

  /** What the pagination loop requests and the tracks it plans: pages
      `1..k+1` up to the first page `k` that says there are no more, and
      the jobs for their episodes; when no page says so, every page and one
      more are requested and there are no jobs. */
  predicate Planned(pages: seq<Page<RawEpisode>>, albumPath: string, requested: seq<nat>, jobs: seq<Job>)
  {
    if StopIndex(pages).None? then requested == PageNumbers(|pages| + 1) && jobs == []
    else
      var k := StopIndex(pages).value;
      requested == PageNumbers(k + 1) && jobs == Jobs(EpisodesOf(pages[..k + 1]), albumPath)
  }

  /** The download loop runs the jobs in order until one raises: at most one
      outcome per job, none raised before the last, and when some job is
      not reached, the last outcome is the raise that stopped the loop. */
  predicate StopsAtFirstRaise(jobs: seq<Job>, outcomes: seq<Outcome>)
  {
    && |outcomes| <= |jobs|
    && (forall i :: 0 <= i < |outcomes| - 1 ==> !outcomes[i].Raised?)
    && (|outcomes| < |jobs| ==> outcomes != [] && outcomes[|outcomes| - 1].Raised?)
  }

  /** The pagination loop of `downAlbum`, then its track plan. When the
      pages run out before one says there are no more, the model stops
      with no jobs. */
  method PlanEpisodes(pages: seq<Page<RawEpisode>>, albumPath: string)
    returns (requested: seq<nat>, jobs: seq<Job>)
    ensures Planned(pages, albumPath, requested, jobs)
  {
    var episodes, complete;
    episodes, requested, complete := FetchAllPages(pages);
    jobs := [];
    if complete {
      jobs := PlanTracks(episodes, albumPath);
    }
  }

  /** The download loop of `downAlbum`: each job in turn, stopping at the
      first exception. `fetchOf(k)` and `subtitleOf(k)` are what the network
      gives for the `k`-th job. */
  method RunJobs(disk: Disk, show: ShowMeta, jobs: seq<Job>, image: seq<bv8>,
                 fetchOf: nat -> Fetch, subtitleOf: nat -> string)
    returns (outcomes: seq<Outcome>)
    requires disk.Valid()
    modifies disk
    ensures disk.Valid() && old(disk.files) <= disk.files && old(disk.dirs) <= disk.dirs
    ensures StopsAtFirstRaise(jobs, outcomes)
  {
    outcomes := [];
    var k := 0;
    while k < |jobs|
      invariant 0 <= k <= |jobs| && |outcomes| == k
      invariant disk.Valid() && old(disk.files) <= disk.files && old(disk.dirs) <= disk.dirs
      invariant forall i :: 0 <= i < k ==> !outcomes[i].Raised?
    {
      var job := jobs[k];
      var outcome, _ := DownloadAndTag(disk, show, job.meta, job.trackPath, job.srtPath, image, fetchOf(k), subtitleOf(k));
      outcomes := outcomes + [outcome];
      if outcome.Raised? {
        return;
      }
      k := k + 1;
    }
  }
}
