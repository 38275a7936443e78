# kuku-dl, the deterministic core

kuku-dl downloads a show ("album") of episodes from the KuKu FM catalog API
and writes one tagged audio file per episode, plus a cover image and optional
subtitles. The repository holds three versions of the downloader:

- `kuku/dl.py` is asynchronous. It writes MP4 files through yt-dlp.
- `kuku.py` is synchronous. It runs ffmpeg itself and writes MP4 files.
- `kuku_z.py` is asynchronous. It writes FLAC files through yt-dlp.

This project models what the three versions compute. That covers:

- the file-name sanitiser `sanitiseName`;
- the batch split `divide_list`;
- the pagination `while True` loop;
- the two stream-URL rewrites;
- the album folder, track and subtitle paths;
- the choice between the premium and the HLS stream;
- the credits join;
- the MP4 atom and FLAC comment assignments;
- the download-and-tag control flow over an abstract file system.

The network, the stream tool and the tag library are not modelled. Instead:

- the catalog is a given sequence of pages (`Pagination.Page`);
- the result of the stream tool is a given `Storage.Fetch` (its exit code and the files it leaves behind);
- the subtitle text and the cover bytes are given values;
- the file system is the class `Storage.Disk`, with a set of existing paths, the subset of them that are directories, and a map of file contents.

Modules:

| module | models |
|---|---|
| `Text` | the Python builtins used: `rstrip`, `strip`, slicing, `capitalize`, `replace`, `join`, `str`, `zfill`, `os.path.join`, `os.path.dirname` |
| `Sanitise` | `sanitiseName`, which is the same in the three files |
| `Partition` | `divide_list` |
| `Pagination` | the pagination loop, which is the same in the three files |
| `Catalog` | the episode record, the show `metadata` dict and the per-episode `epMeta` dict |
| `Tags` | MP4 atom and FLAC comment maps, credit keys |
| `Tagger` | the tag assignments, statement by statement, proved to build the maps of `Tags` |
| `Storage` | the file system, the stream tool's result and a task's outcome |
| `KukuDl` | `kuku/dl.py` |
| `KukuSync` | `kuku.py` |
| `KukuFlac` | `kuku_z.py`. It reuses `KukuDl` where the code is the same: the task list, the URL rewrite and the batch split (`KukuDl.PlanAlbum`). |

Surprising behaviours of the code, each kept by the model:

- **`sanitiseName` is not idempotent.** Deleting a character or expanding a final `:` can expose trailing whitespace, and a second pass strips it. `Sanitise.SanitiseNotIdempotentDelete` and `Sanitise.SanitiseNotIdempotentColon` show this. The inputs are `"a *"` and `"a:"`. What does hold is `Sanitise.SanitiseFixedPoint`: it characterises exactly the names that are left unchanged.
- **Re-tagging is not always harmless.** The tag values are idempotent (`Tags.Mp4AtomsIdempotent`, `Tags.FlacCommentsIdempotent`), with two exceptions:
  - `kuku.py` pops the encoder atom `©too` without checking for it. A file without that atom raises at the pop, so tagging the tagged block a second time raises (`KukuSync.RetagRaises`).
  - `kuku_z.py` adds the cover to the picture list on every pass.
- **Rerunning `kuku/dl.py` does not skip finished episodes.** `kuku/dl.py` checks whether `path` exists but tags `path + ".m4a"`. So a rerun repeats every fetch unless the stream tool also leaves `path` itself (`KukuDl.RerunRepeatsDownload`). `kuku_z.py` has the same shape with `.flac` (`KukuFlac.RerunRepeatsDownload`).
- **An episode whose title sanitises to nothing is never downloaded by `kuku/dl.py` or `kuku_z.py`.** A title such as `"???"` gives the track path `os.path.join(albumPath, "")`, which is `albumPath + "/"`. That path exists as soon as the album directory does, so `download` returns at once (`KukuDl.UntitledEpisodeSkipped`, `KukuFlac.UntitledEpisodeSkipped`).
- **In `kuku.py`, one failing episode stops the album.** `downAlbum` catches nothing, so the first exception ends it. `KukuSync.DownAlbum` and `KukuSync.RunJobs` state this.
- **Most credits are empty.** Only `kuku.py` fills the credits (kuku.py:44-46). In `kuku/dl.py` and `kuku_z.py` the credits dict is created empty (kuku/dl.py:74, kuku_z.py:34) and never filled, so their credit loops assign nothing for real inputs. This is read from the code; the model keeps the loops over a general credits list and proves nothing about the empty case.

## Model

| member | source | states |
|---|---|---|
| Text.RStrip | kuku/dl.py:139 | `rstrip()` gives the longest prefix that does not end in whitespace; every character dropped is whitespace |
| Text.Strip | kuku/dl.py:227 | `strip()` is never longer than its input, and neither end of the result is whitespace |
| Text.StripIsBothStrips | kuku.py:174 | `strip()` is `lstrip()` after `rstrip()`, where `Text.LStrip` gives the longest suffix that does not start with whitespace and drops only whitespace |
| Text.StripAllSpace | kuku.py:174-176 | a string of whitespace strips to the empty string |
| Text.RStripChar | kuku.py:77-78 | `rstrip('/')` drops exactly the trailing `/` characters; the result does not end in `/` |
| Text.Prefix | kuku/dl.py:176 | `s[0:n]` has length `min(n, len(s))` and is a prefix of `s` |
| Text.DropLast | kuku/dl.py:228 | `s[:-5]` drops the last five characters, leaving nothing when `s` is not longer than five |
| Text.Lower | kuku_z.py:144 | lower-casing keeps the length and maps each character on its own |
| Text.Capitalize | kuku/dl.py:202 | `capitalize()` keeps the length, upper-cases the first character and lower-cases the rest |
| Text.ReplaceChar | kuku/dl.py:202 | `replace("_", " ")` keeps the length and swaps exactly the `_` characters |
| Text.Join | kuku.py:45-46 | `", ".join` of no names is empty and of one name is that name |
| Text.JoinLength | kuku.py:45-46 | the length of a join is the total length of the parts plus one separator for each pair of neighbours |
| Text.JoinSnoc | kuku.py:45-46 | joining one more name appends the separator and that name |
| Text.NatToString | kuku.py:190 | `str(n)` of a natural number is decimal digits whose value is `n`, with no leading zero unless `n` is zero, and exactly one digit when `n < 10` |
| Text.IntToString | kuku.py:190 | `str(i)` of a non-negative `i` is the digits of `i` with no leading zero; of a negative `i` it is `-` followed by the digits of `-i`, again with no leading zero |
| Text.ZFill | kuku.py:190 | `zfill(w)` pads to width `w` and never shortens |
| Text.ZFillOneDigit | kuku.py:190 | a one-digit index is padded as `0d` |
| Text.ZFillManyDigits | kuku.py:190 | an index of ten or more keeps its digits unchanged |
| Text.ZFillNegative | kuku.py:190 | a negative one-digit index is `-d`: the sign counts towards the width |
| Text.PathJoin | kuku/dl.py:148-150 | `os.path.join(a, b)` ends with `b` |
| Text.SlashedDirectory | kuku/dl.py:234 | `os.path.join(d, "")` is `d + "/"` for a directory path without a trailing slash, and stripping the slashes gives `d` back |
| Text.LastSegment | kuku/dl.py:56 | `split("/")[-1]` has no `/`, ends the path, and is preceded by a `/` if it is not the whole path |
| Text.Dirname | kuku.py:70 | `os.path.dirname` is a prefix of its path |
| Text.DirnameOfJoin | kuku.py:70 | the directory of `join(dir, name)` is `dir` when `name` has no `/` and `dir` does not end in one |
| Catalog.StrOfGet | kuku/dl.py:232 | `str(ep.get(key))` of a missing key is `"None"` |
| Sanitise.StripBlanks | kuku/dl.py:139 | removes exactly the trailing run of spaces and tabs: the result is a prefix, every character dropped is a space or a tab, and the result does not end in one |
| Sanitise.StripTrailingBlanks | kuku/dl.py:139 | the `[ \t]+$` pass, defined by `Sanitise.StripBlanks`: the blanks at the end go, and so do those just before a final newline, which is kept |
| Sanitise.DropForbidden | kuku/dl.py:139 | deleting the forbidden characters never lengthens the string |
| Sanitise.ExpandColons | kuku/dl.py:136-138 | expanding `:` to ` - ` never shortens the string |
| Sanitise.DropForbiddenRemovesAll | kuku/dl.py:139 | no `\ / * ? " < > \| $` is left after the deletion pass |
| Sanitise.DropForbiddenKeepsOthers | kuku.py:50 | every other character is kept as many times as it occurs |
| Sanitise.DropForbiddenIdentity | kuku.py:50 | the deletion pass changes a string if and only if it has a forbidden character |
| Sanitise.ExpandColonsRemovesAll | kuku.py:50 | no `:` is left after the expansion pass |
| Sanitise.ExpandColonsLength | kuku.py:50 | each `:` lengthens the string by two |
| Sanitise.ExpandColonsIdentity | kuku.py:50 | the expansion pass changes a string if and only if it has a `:` |
| Sanitise.ExpandNoNewForbidden | kuku.py:50 | the expansion adds no forbidden character |
| Sanitise.SanitiseIsSafe | kuku/dl.py:135-140 | the output of `sanitiseName` has no forbidden character and no `:` |
| Sanitise.SanitiseName | kuku/dl.py:135-140 | `sanitiseName`, the composition of `rstrip()`, the blanks pass, the deletion pass and the colon expansion; its properties are stated by `Sanitise.SanitiseIsSafe`, `Sanitise.SanitiseIsCharwise` and `Sanitise.SanitiseFixedPoint` |
| Sanitise.TrailingBlanksPassIsIdle | kuku/dl.py:139 | the `[ \t]+$` pass never changes the result of `rstrip()` |
| Sanitise.SubstitutionsAreCharwise | kuku.py:50 | the two substitutions map every character through delete / expand / keep, in order |
| Sanitise.SanitiseIsCharwise | kuku.py:48-50 | `sanitiseName` equals the character-wise image of the `rstrip()`ped name |
| Sanitise.SanitiseFixedPoint | kuku/dl.py:135-140 | a name comes back unchanged if and only if it has no forbidden character, no `:` and no trailing whitespace |
| Sanitise.SanitiseConcat | kuku_z.py:95-96 | on a name that ends in a kept character, sanitising distributes over concatenation |
| Sanitise.SanitiseAllForbidden | kuku_z.py:95-96 | the empty name, and a name made only of forbidden characters, give the empty string |
| Sanitise.SanitiseNotIdempotentDelete | kuku_z.py:95-96 | `"a *"` gives `"a "`, and sanitising that gives `"a"` |
| Sanitise.SanitiseNotIdempotentColon | kuku_z.py:95-96 | `"a:"` gives `"a - "`, and sanitising that gives `"a -"` |
| Sanitise.ImageAllConcat | kuku/dl.py:136-140 | the character-wise image distributes over concatenation |
| Sanitise.ImageAllPlain | kuku/dl.py:136-140 | a string with no forbidden character and no `:` is its own image |
| Sanitise.Image | kuku.py:50 | what one character becomes under the two substitutions: nothing if forbidden, ` - ` for `:`, else itself; `Sanitise.SubstitutionsAreCharwise` proves the passes agree with it |
| Sanitise.ImageAll | kuku.py:48-50 | the independent character-by-character reading of the substitutions, proved equal to `sanitiseName` after `rstrip()` by `Sanitise.SanitiseIsCharwise` |
| Partition.Divide | kuku/dl.py:123-125 | for `n >= 1` there are exactly `n` pieces |
| Partition.Piece | kuku/dl.py:125 | piece `i` is `lst[i*k + min(i, m) : (i+1)*k + min(i+1, m)]` with `k, m = divmod(len(lst), n)`; its sizes are stated by `Partition.DivideSizes` |
| Partition.DivideSizes | kuku/dl.py:124-125 | the first `len % n` pieces hold `len // n + 1` elements and the rest `len // n` |
| Partition.DivideBalanced | kuku_z.py:83-85 | piece sizes differ by at most one, and never increase along the list |
| Partition.DividePrefix | kuku/dl.py:124-125 | the first `j` pieces, concatenated, are the list up to where piece `j` starts |
| Partition.DivideConcat | kuku/dl.py:124-125 | the pieces, concatenated in order, give back the list |
| Partition.DivideShort | kuku/dl.py:123-125 | with fewer elements than pieces, the first pieces hold one element each and the others are empty |
| Partition.DivideList | kuku_z.py:83-85 | `n == 0` raises (`None`); a negative `n` gives no pieces; otherwise exactly `Partition.Divide`'s `n` pieces, which concatenate to the list |
| Pagination.StopIndex | kuku/dl.py:216-223 | the index of the first page whose `has_more` is false; absent exactly when every page has more |
| Pagination.EpisodesOf | kuku/dl.py:216-223 | reference definition of `episodes.extend(...)` over the pages: their episode lists one after the other; `Pagination.EpisodesOfConcat` and `Pagination.EpisodesOfLength` state its properties |
| Pagination.PageNumbers | kuku/dl.py:217-221 | reference definition of the page numbers requested: `1, 2, ..., n`; `Pagination.FetchAllPages` is proved to request exactly these |
| Pagination.FetchAllPages | kuku/dl.py:216-223 | the loop requests pages 1 up to the first page without more, each once and in order; `episodes` is the in-order concatenation of those pages' episodes |
| Pagination.StopIgnoresLaterPages | kuku_z.py:159-164 | pages after the stopping page never influence where the loop stops |
| Pagination.EpisodesOfConcat | kuku.py:161-169 | the episode list of two runs of pages is the two lists one after the other; nothing is deduplicated |
| Pagination.EpisodesOfLength | kuku.py:161-169 | the number of episodes is the sum of the pages' counts |
| Tags.FreeformKey | kuku/dl.py:184-199 | a freeform atom name is the iTunes prefix followed by the name |
| Tags.CreditName | kuku/dl.py:202 | `cat.replace("_", " ").capitalize()`; its shape is stated by `Tags.CreditNameShape` |
| Tags.CreditNameShape | kuku/dl.py:202 | a credit name keeps the role's length, has no `_`, starts with no lower-case letter and continues with no upper-case one |
| Tags.CreditTags | kuku/dl.py:201-205 | the credits loop as a map: one entry per role, later roles overwriting earlier ones with the same key; stated by `Tags.CreditTagsKeys` and `Tags.CreditTagsValue` |
| Tags.CreditTagsKeys | kuku/dl.py:201-205 | the credits loop writes exactly one key per role |
| Tags.CreditTagsValue | kuku_z.py:142-144 | a role's key holds that role's value unless a later role maps to the same key |
| Tags.CreditKeysAreFreeform | kuku/dl.py:201-205 | every MP4 credit atom is a freeform atom |
| Tags.StandardAtoms | kuku/dl.py:173-179 | the seven standard atoms: album, artist, album artist, date cut to ten characters, track pair, media kind 2, title |
| Tags.InfoAtoms | kuku/dl.py:184-199 | the freeform information atoms (fictional, author, language, type, season), with the age rating only when asked for |
| Tags.Mp4Atoms | kuku/dl.py:171-208 | the whole tagged block: the file's atoms without the encoder atom, overwritten by the standard, information and credit atoms, then the cover; `Tags.Mp4AtomsFacts` and `Tags.Mp4AtomsIdempotent` state its properties |
| Tags.Mp4AtomsFacts | kuku/dl.py:173-182 | a tagged block holds the album, artist, album artist, the date cut to ten characters, the track pair `(epNo, nEpisodes)`, media kind 2, the title and the cover, and no encoder atom |
| Tags.EncoderNotStandard | kuku/dl.py:173-182 | the encoder atom is none of the seven standard atoms |
| Tags.ShortKeyAtoms | kuku/dl.py:173-208 | every short atom name other than `covr` comes from the file's own block or the standard atoms |
| Tags.InfoKeysAreFreeform | kuku/dl.py:184-199 | the information atoms are freeform atoms |
| Tags.Mp4AtomsCredit | kuku.py:127-130 | a credit role's atom holds that role's joined names unless a later role has the same credit name |
| Tags.Mp4AtomsAgeRating | kuku.py:123-125 | the age-rating atom is present if and only if it was asked for, and then holds the rating |
| Tags.AgeNotStandard | kuku.py:123-125 | the age-rating atom is none of the standard atoms |
| Tags.AgeInfo | kuku.py:123-125 | the age-rating atom is among the information atoms if and only if it was asked for |
| Tags.Mp4AtomsIdempotent | kuku/dl.py:173-208 | tagging an already tagged MP4 block again with the same inputs leaves it unchanged |
| Tags.StandardComments | kuku_z.py:127-140 | the thirteen standard Vorbis comments, numbers written with `str` |
| Tags.FlacComments | kuku_z.py:127-144 | the whole comment block: the file's comments overwritten by the standard ones and then one comment per credit role; `Tags.FlacCommentsFacts` and `Tags.FlacCommentsIdempotent` state its properties |
| Tags.StandardCommentKept | kuku_z.py:127-144 | a standard comment survives the credits loop unless a role is named like it |
| Tags.FlacCommentsIdempotent | kuku_z.py:127-144 | writing the same comments twice gives the comments written once |
| Tags.FlacCommentsFacts | kuku_z.py:130-134 | `tracknumber` is `str(epNo)`, `totaltracks` is `str(nEpisodes)` (the catalog count), `date` is at most the first ten characters of the date, and `description` is `Fictional` or empty |
| Tagger.AssignStandard | kuku/dl.py:173-179 | the seven assignments build the file's atoms overwritten by the standard atoms |
| Tagger.AssignInfo | kuku.py:113-125 | the freeform assignments add the information atoms, and the age rating only when asked |
| Tagger.AssignCredits | kuku/dl.py:201-205 | the credits loop adds one freeform atom per role, a later role overwriting an earlier one with the same name |
| Tagger.AssignComments | kuku_z.py:127-140 | the thirteen assignments overwrite the file's comments with the standard comments |
| Tagger.AssignCreditComments | kuku_z.py:142-144 | the credits loop adds one comment per role |
| Storage.Disk.Exists | kuku/dl.py:158 | `os.path.exists` is true exactly for a created path, and for a directory named with trailing slashes (`Storage.Disk.Present`) |
| Storage.Disk.MakeDirs | kuku.py:70 | `os.makedirs(..., exist_ok=True)` raises and changes nothing exactly when the path is an existing regular file (`Storage.Disk.NonDirectory`); otherwise it adds the path as a directory and changes no contents |
| Storage.Disk.WriteIn | kuku/dl.py:153-155 | opening `os.path.join(dir, name)` for writing raises and changes nothing exactly when `dir` is an existing regular file or the joined path is an existing directory; otherwise the joined path is added with its contents and no directory is added |
| Storage.Disk.Write | kuku/dl.py:168-169 | opening a path for writing raises (`IsADirectoryError`) and changes nothing exactly when the path is an existing directory; otherwise it adds the path and sets its contents, and no directory is added |
| Storage.Disk.ApplyFetch | kuku.py:82-84 | the stream tool's files are added with their contents; no directory is added |
| KukuDl.YearPart | kuku/dl.py:144-146 | `f"({date[:4]}) "` for a non-empty date, else nothing; used by `KukuDl.YearPartImage` |
| KukuDl.YearPartImage | kuku/dl.py:144-146 | the year part is sanitised inside its brackets only |
| KukuDl.SanitiseBracketed | kuku/dl.py:143-149 | a name `t + y + "[" + l + "]"` is sanitised part by part |
| KukuDl.FolderName | kuku/dl.py:143-149 | the sanitised "Title (YYYY) [Lang]"; its parts are stated by `KukuDl.FolderNameParts` |
| KukuDl.FolderNameParts | kuku/dl.py:142-149 | the folder name is the sanitised title, a space, the sanitised `(YYYY) ` when there is a date, and `[` sanitised language `]` |
| KukuDl.FolderNamePlain | kuku/dl.py:142-149 | with plain parts, the folder name is exactly "Title (YYYY) [Lang]" |
| KukuDl.FolderNameSafe | kuku/dl.py:142-149 | the folder name is safe and ends with `]` |
| KukuDl.AlbumPath | kuku/dl.py:148-150 | `os.path.join(os.getcwd(), path, folder)`; its shape is stated by `KukuDl.AlbumPathShape` |
| KukuDl.FolderPathEnds | kuku/dl.py:148-150 | the album path ends with the folder's `]`, so it is not empty and has no trailing slash |
| KukuDl.AlbumPathShape | kuku/dl.py:148-150 | the album directory is the folder name directly inside the base path |
| KukuDl.PrepareAlbum | kuku/dl.py:151-155 | raises exactly when the album path is a regular file or `cover.png` inside it is an existing directory; in the first case nothing changes; otherwise the album directory is made only when `os.path.exists` is false for it, and `cover.png` holds the image exactly when nothing raised; for a path without a trailing slash the album path exists afterwards |
| KukuDl.CreateDirs | kuku/dl.py:142-155 | `create_dirs` raises exactly when the album path is an existing regular file or `cover.png` inside it is an existing directory; the album path is left, now a directory unless a path of that name already existed, the cover is added with the image exactly when nothing raised, and nothing else changes |
| KukuDl.StreamUrl | kuku/dl.py:228 | the rewritten URL ends with `128kb.m3u8`, and before it is the stripped URL minus its last five characters |
| KukuDl.StreamUrlSwapsSuffix | kuku/dl.py:228 | on a stripped URL the last five characters are replaced by `128kb.m3u8` |
| KukuDl.EpisodeMeta | kuku/dl.py:226-233 | the `epMeta` dict of one record, `None` when it has no `hls_url`; stated by `KukuDl.TaskShape` |
| KukuDl.TaskOf | kuku/dl.py:234-240 | one task: `epMeta` with the track path and the optional subtitle path; stated by `KukuDl.TaskShape` |
| KukuDl.TaskShape | kuku/dl.py:225-239 | a task exists if and only if the record has `hls_url`; its title is `sanitiseName(title.strip())` and safe, its URL is the rewrite of `hls_url`, the subtitle URL and date are stripped (`"None"` when missing), the track path is `os.path.join(albumPath, title)`, and the subtitle path is `os.path.join(albumPath, title + ".srt")` exactly when subtitles are ripped |
| KukuDl.StripNone | kuku/dl.py:232 | `"None".strip()` is `"None"` |
| KukuDl.BuildTasks | kuku/dl.py:225-240 | one task per episode, in order, and `None` exactly when some record lacks `hls_url` |
| KukuDl.PlanAlbum | kuku/dl.py:211-247 | `downloadAlbum` requests the pages up to the stop, then splits the tasks into `batch_size` batches, exactly `Partition.Divide`'s balanced split of the task list; it fails when the pages run out, a record lacks `hls_url`, or the batch size is zero |
| KukuDl.TagAtoms | kuku/dl.py:171-208 | the assignments of `download` build `Mp4Atoms` with the age rating always written |
| KukuDl.RetagIsStable | kuku/dl.py:181-182 | with the pop guarded, tagging the tagged block again gives the same block |
| KukuDl.WantsSubtitle | kuku/dl.py:165-166 | `hasLyrics and srtPath`: a non-empty subtitle URL and a non-empty subtitle path |
| KukuDl.SubtitleBlocked | kuku/dl.py:165-169 | the subtitle is wanted and its path is an existing directory, so its `open` raises |
| KukuDl.CoverIsNotAlbum | kuku/dl.py:153 | `cover.png` joined to the album path is never the album path itself |
| KukuDl.Staged | kuku/dl.py:163-169 | the contents after the stream tool's files and, when wanted, the subtitle file |
| KukuDl.MediaPath | kuku/dl.py:171 | the file tagged is `path + ".m4a"` |
| KukuDl.Download | kuku/dl.py:157-209 | a `path` that `os.path.exists` sees returns with nothing fetched and the disk unchanged; otherwise the stream is fetched, the subtitle requested and written exactly when both URL and path are given, raising after the request when the subtitle path is a directory, and `path + ".m4a"` tagged, raising when it is not an MP4 file or is a directory; no directory is made |
| KukuDl.RerunRepeatsDownload | kuku/dl.py:158-171 | unless the stream tool leaves `path` itself, running a task twice fetches the stream twice and never skips |
| KukuDl.UntitledEpisodeSkipped | kuku/dl.py:142-160 | after `create_dirs`, an episode whose title sanitises to nothing has the track path `albumPath + "/"` and is skipped with nothing fetched |
| KukuFlac.FolderName | kuku_z.py:99-104 | the sanitised "Title(YYYY) [Lang]"; its parts are stated by `KukuFlac.FolderNameParts` |
| KukuFlac.FolderNameParts | kuku_z.py:99-104 | the folder name is the sanitised title run straight into the year part and `[` language `]` |
| KukuFlac.FolderNameMissesSpace | kuku_z.py:99 | the folder names of `kuku_z.py` and `kuku/dl.py` differ by exactly the space after the title |
| KukuFlac.AlbumPath | kuku_z.py:103-104 | `os.path.join(os.getcwd(), path, folder)` with the folder name of `kuku_z.py` |
| KukuFlac.AlbumPathEnds | kuku_z.py:103-104 | the album path ends with `]`, so it is not empty and has no trailing slash |
| KukuFlac.CreateDirs | kuku_z.py:98-109 | `create_dirs` raises exactly when the album path is an existing regular file or `cover.png` inside it is an existing directory; the album path is left, now a directory unless a path of that name already existed, the cover is added with the image exactly when nothing raised, and nothing else changes |
| KukuFlac.TagComments | kuku_z.py:127-144 | the assignments of `download` build `FlacComments` |
| KukuFlac.RetagIsStable | kuku_z.py:127-144 | writing the comments of a tagged block again gives the same comments |
| KukuFlac.MediaPath | kuku_z.py:125 | the file tagged is `path + ".flac"` |
| KukuFlac.Download | kuku_z.py:111-152 | as in `kuku/dl.py`, with `path + ".flac"` opened as FLAC, raising when it is not a FLAC file or is a directory, its comments set and the cover appended to its pictures |
| KukuFlac.RerunRepeatsDownload | kuku_z.py:111-125 | unless the stream tool leaves `path` itself, running a task twice fetches the stream twice and never skips |
| KukuFlac.UntitledEpisodeSkipped | kuku_z.py:98-114 | after `create_dirs`, an episode whose title sanitises to nothing has the track path `albumPath + "/"` and is skipped with nothing fetched |
| KukuSync.JoinCredits | kuku.py:44-46 | every role maps to its people's names joined by `", "`, in the listed order |
| KukuSync.NormaliseAudioUrl | kuku.py:76-80 | a URL ending in `m3u8` is kept; otherwise trailing `/` go and `/128kb.m3u8` is added; the result always ends in `m3u8` |
| KukuSync.NormaliseIdempotent | kuku.py:76-80 | normalising twice is normalising once |
| KukuSync.AudioUrl | kuku.py:173-174 | `premium_audio_url or hls_url`, stripped; stated by `KukuSync.AudioUrlChoice` |
| KukuSync.AudioUrlChoice | kuku.py:173-174 | the premium URL when it is non-empty, else the HLS URL, else empty; stripped |
| KukuSync.BlankPremiumHidesHls | kuku.py:173-176 | a premium URL of whitespace only is chosen and strips to empty, so the episode is skipped even with an HLS URL |
| KukuSync.AlbumPath | kuku.py:142-149 | `os.path.join("Downloads", lang, type, folder)`; its shape is stated by `KukuSync.AlbumPathShape` |
| KukuSync.AlbumPathEnds | kuku.py:148-149 | the album path ends with `]`, so it is not empty and has no trailing slash |
| KukuSync.AlbumPathShape | kuku.py:142-149 | the album is `Downloads/<lang>/<type>/<folder>` with the folder name of `kuku/dl.py` |
| KukuSync.TrackStem | kuku.py:190 | `f"{str(index).zfill(2)}. {title}"`; stated by `KukuSync.TrackStemNumber` |
| KukuSync.TrackName | kuku.py:189-190 | the track file name, the stem with `.m4a` |
| KukuSync.SubtitleName | kuku.py:191-192 | the subtitle file name, the stem with `.srt` |
| KukuSync.TrackStemNumber | kuku.py:189-192 | the file stem starts with the index padded to two digits, then `. ` and the title |
| KukuSync.PaddedNumberNoSlash | kuku.py:189-192 | the padded index holds no `/` |
| KukuSync.JobOf | kuku.py:171-192 | the job of one episode, `None` when its audio URL is empty; stated by `KukuSync.JobShape` |
| KukuSync.Jobs | kuku.py:171-193 | the jobs of a list of episodes, skipped ones left out; stated by `KukuSync.JobsConcat`, `KukuSync.JobsAllKept`, `KukuSync.JobsAllSkipped` and `KukuSync.JobsFromEpisodes` |
| KukuSync.JobShape | kuku.py:171-192 | an episode is kept if and only if its audio URL is non-empty; its track and subtitle paths are `<album>/<NN>. <title>.m4a` and `.srt`, and both have the album as directory |
| KukuSync.EpisodeFile | kuku.py:189-192 | a numbered episode file sits directly in the album directory |
| KukuSync.FileInDirectory | kuku.py:189-192 | joining a slash-free name to a directory puts one `/` between them, and the directory of the result is that directory |
| KukuSync.JobsConcat | kuku.py:171-193 | the jobs of two runs of episodes are the two job lists one after the other |
| KukuSync.JobsAllKept | kuku.py:171-193 | when no episode is skipped there is one job per episode, in catalog order |
| KukuSync.JobKept | kuku.py:176-192 | an episode with an audio URL has a job |
| KukuSync.JobsAllSkipped | kuku.py:176-178 | episodes without an audio URL give no job |
| KukuSync.JobsFromEpisodes | kuku.py:171-193 | every job is the job of some episode |
| KukuSync.PlanTracks | kuku.py:171-192 | the `for` loop with its `continue` produces exactly `Jobs` of the episodes |
| KukuSync.TagAtoms | kuku.py:101-133 | it raises if and only if the file has no encoder atom; otherwise it builds `Mp4Atoms` with the age rating only when the rating is non-empty |
| KukuSync.RetagRaises | kuku.py:111 | tagging the block the first pass produced raises, because the encoder atom is gone |
| KukuSync.Staged | kuku.py:82-99 | the contents after ffmpeg's files and, when there is a subtitle URL, the subtitle file |
| KukuSync.Proceeds | kuku.py:65-70 | `downloadAndTag` passes its existence check and its `os.makedirs`: `path` is missing and its parent is a non-empty path that is not a regular file |
| KukuSync.DownloadAndTag | kuku.py:53-134 | a path that `os.path.exists` sees returns without fetching; an empty directory raises, and so does a directory that is a regular file, before ffmpeg runs; otherwise the directory is made, a non-zero ffmpeg code returns after the fetch with no subtitle or tag write, and on success the subtitle is written when there is one, raising after the request when its path is a directory, and `path` is tagged, raising when it is not MP4, is a directory or has no encoder atom |
| KukuSync.PrepareDownAlbum | kuku.py:151-156 | `os.makedirs(albumPath, exist_ok=True)` raises, changing nothing, when the album path is a regular file, and the `open` of the cover raises when `cover.png` is an existing directory, after the album directory is made; otherwise the album directory and `cover.png` holding the image are added and nothing else changes |
| KukuSync.DownAlbum | kuku.py:136-193 | the album path is `KukuSync.AlbumPath`; an album path that is a regular file, or a `cover.png` that is a directory, raises before any page is requested; otherwise the album directory and cover exist afterwards, the pages up to the stop are requested and the jobs are `Jobs` of the episodes fetched (`KukuSync.Planned`), and at most one job's outcome raises: the last one (`KukuSync.StopsAtFirstRaise`) |
| KukuSync.DownAlbumAt | kuku.py:151-193 | the same as `KukuSync.DownAlbum` for a given album path that is non-empty and has no trailing slash |
| KukuSync.PlanEpisodes | kuku.py:158-192 | pagination followed by the track plan (`KukuSync.Planned`): the pages up to the first that says there are no more are requested and the jobs are `Jobs` of their episodes; no jobs when the pages run out |
| KukuSync.Planned | kuku.py:158-192 | the pages requested and the jobs planned for a page sequence |
| KukuSync.RunJobs | kuku.py:171-193 | one outcome per job run, in order, stopping right after the first that raises (`KukuSync.StopsAtFirstRaise`); paths are only ever added |
| KukuSync.StopsAtFirstRaise | kuku.py:171-193 | at most one outcome per job, no raise before the last outcome, and a raise last when some job was not reached |

## Left out

- HTTP requests, JSON decoding and the cover download are left out. Page answers, subtitle text and cover bytes are inputs. A JSON `null` where a string is expected is not modelled; the model treats a missing key and an empty string as the code's `.get` defaults have them.
- yt-dlp, ffmpeg and mutagen are foreign libraries. Only their observable effect is modelled: an exit code plus the files left behind, and the resulting tag map. How mutagen serialises atoms is not modelled. `hls_download` catches every exception of yt-dlp and prints it (kuku/dl.py:106-110, kuku_z.py:66-70), so `download` carries on after a failed fetch; the model has this as a fetch whose exit code `download` ignores and that may leave no files.
- asyncio, `gather`, `sleep`, `run_async` and the thread pool are concurrency and are left out. `divide_and_run` never awaits `gather`, so no batch order can be relied on. The model stops at the batches `KukuDl.PlanAlbum` hands over.
- The show-metadata normalisation in `__init__` (title, language and type cleaning) is left out; the show metadata is an input. Only the credits join of `kuku.py` is modelled.
- The cover is read back from `cover.png` for each episode in all three programs: `kuku.py:131`, `kuku/dl.py:206-208` and `kuku_z.py:146-148`. `KukuSync.DownloadAndTag`, `KukuDl.Download` and `KukuFlac.Download` take the cover bytes as a parameter instead of reading them from the disk. The compositions (`KukuSync.DownAlbum`, both `UntitledEpisodeSkipped`) pass the image just written to `cover.png`, which is what that read returns when nothing else touched the file.
- Storage.Disk.Write: opening a file for writing inside a directory that is a regular file raises, and the model has this only for the cover (`Storage.Disk.WriteIn`). The other writes go under paths whose directory is made just before them, by `create_dirs` or by `os.makedirs(os.path.dirname(path))`. A target that is an existing directory is modelled for every write.
- `os.makedirs` also creates missing parent directories. The model records only the leaf directory, and a parent path that is a regular file, which also makes it raise, is not modelled. `os.path.exists` of a path with trailing slashes is true for a recorded directory; a regular file named with a trailing slash, which the system reports as missing, does not arise in the model.
- Unicode is restricted: whitespace is Python's whitespace below U+0080 (the characters U+0085, U+00A0, U+1680, U+2000 to U+200A, U+2028, U+2029, U+202F, U+205F and U+3000, which `str.strip` also removes, are kept), case mapping covers `A`-`Z` and `a`-`z` only, and strings are sequences of characters with no encoding.
- The catalog is a finite sequence of pages. If every given page says there are more, the code would request one page more than the model can answer; that is reported as an incomplete run with no tasks.
- In `kuku/dl.py` and `kuku_z.py`, opening an empty subtitle path is not modelled: the subtitle is written only when the path is non-empty, as `hasLyrics and srtPath` requires.
- `kuku.py` builds each job and runs it right away. The model plans all jobs first (`KukuSync.PlanEpisodes`) and then runs them (`KukuSync.RunJobs`). Planning reads and writes nothing, so the order of file operations is the same.
- FLAC comment names are case-insensitive; the model keys them by their lower-cased name.
- Archiving, single-episode lookup and retrying a failed URL do not exist in this code.
- `kuku/__main__.py` and the `__main__` blocks (argument parsing) are left out.
- KukuSync.DownAlbum: states which jobs there are and where the run stops, but not what each job's outcome was. That is stated per call by `KukuSync.DownloadAndTag`.
- KukuSync.RunJobs: states the stopping rule and that paths are only added, not each run's effect on the disk.
- Text.Join: its own contract covers zero and one part only. `Text.JoinLength` and `Text.JoinSnoc` state the rest.
