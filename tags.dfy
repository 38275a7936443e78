/** Tag blocks as the two container libraries hold them: MP4 atoms keyed by
    their four-character or freeform names, and FLAC Vorbis comments. Also the
    credit-role key computation shared by every copy of the tagger. */
module Tags {
  import opened Text
  import opened Catalog

  /** One MP4 atom value: a one-element text list, a `(track, total)` pair,
      the `stik` media kind, a freeform byte string, or the cover image. */
  datatype Mp4Value = Str(s: string) | TrackPair(track: int, total: int) | MediaKind(kind: int)
                    | Freeform(data: string) | Covers(image: seq<bv8>)

  const AlbumKey := "\U{00A9}alb"
  const ArtistKey := "\U{00A9}ART"
  const AlbumArtistKey := "aART"
  const DayKey := "\U{00A9}day"
  const TrackKey := "trkn"
  const KindKey := "stik"
  const TitleKey := "\U{00A9}nam"
  const EncoderKey := "\U{00A9}too"
  const CoverKey := "covr"
  const FreeformPrefix := "----:com.apple.iTunes:"

  /** A freeform iTunes atom name. */
  function FreeformKey(name: string): (k: string)
    ensures StartsWith(k, FreeformPrefix) && EndsWith(k, name)
  {
    FreeformPrefix + name
  }

  /** `cat.replace("_", " ").capitalize()`: the tag name of a credit role. */
  function CreditName(cat: string): string {
    Capitalize(ReplaceChar(cat, '_', ' '))
  }

  /** A credit name keeps the role's length, has no underscore, starts with
      no lower-case letter and continues with no upper-case one. */
  lemma CreditNameShape(cat: string)
    ensures |CreditName(cat)| == |cat|
    ensures forall i :: 0 <= i < |cat| ==> CreditName(cat)[i] != '_'
    ensures cat != [] ==> !IsLower(CreditName(cat)[0])
    ensures forall i :: 1 <= i < |cat| ==> !IsUpper(CreditName(cat)[i])
    ensures forall i :: 0 <= i < |cat| && IsLower(cat[i]) && i > 0 ==> CreditName(cat)[i] == cat[i]
  {
  }

  /** The MP4 atom of a credit role. */
  function Mp4CreditKey(cat: string): string {
    FreeformKey(CreditName(cat))
  }

  /** The value a credit's joined names are stored as in MP4: a freeform
      atom holding the text. `CreditTags` is shared by both taggers and takes
      the key and value builders of each format as parameters. */
  function Mp4CreditValue(names: string): Mp4Value {
    Freeform(names)
  }

  /** The Vorbis comment name of a credit role (comment names compare
      without case, see `FlacKey`). */
  function FlacCreditKey(cat: string): string {
    FlacKey(CreditName(cat))
  }

  /** The value a credit's joined names are stored as in a Vorbis comment:
      the text itself. */
  function FlacCreditValue(names: string): string {
    names
  }

  /** Vorbis comment names are case-insensitive: a comment block is keyed
      here by the lower-cased name. */
  function FlacKey(name: string): string {
    Lower(name)
  }

  /** The tags the credits loop assigns, in order, a later role overwriting
      an earlier one that maps to the same key. */
  function CreditTags<V>(credits: seq<(string, string)>, key: string -> string, value: string -> V): map<string, V> {
    if credits == [] then map[]
    else
      var last := credits[|credits| - 1];
      CreditTags(credits[..|credits| - 1], key, value)[key(last.0) := value(last.1)]
  }

  /** One more credit role sets one more key, after the earlier ones. */
  lemma CreditTagsStep<V>(credits: seq<(string, string)>, i: nat, key: string -> string, value: string -> V)
    requires i < |credits|
    ensures CreditTags(credits[..i + 1], key, value) == CreditTags(credits[..i], key, value)[key(credits[i].0) := value(credits[i].1)]
  {
    assert credits[..i + 1][..i] == credits[..i];
  }

  /** Updating the overlaid map is overlaying the updated map. */
  lemma OverlayUpdate<V>(a: map<string, V>, m: map<string, V>, k: string, v: V)
    ensures (a + m)[k := v] == a + m[k := v]
  {
  }

  /** The credits loop writes exactly one key per role. */
  lemma {:induction false} CreditTagsKeys<V>(credits: seq<(string, string)>, key: string -> string, value: string -> V)
    ensures CreditTags(credits, key, value).Keys == set i | 0 <= i < |credits| :: key(credits[i].0)
  {
    if credits != [] {
      var init := credits[..|credits| - 1];
      CreditTagsKeys(init, key, value);
      assert forall i :: 0 <= i < |init| ==> init[i] == credits[i];
    }
  }

  /** A role's key holds that role's value unless a later role maps to the
      same key. */
  lemma {:induction false} CreditTagsValue<V>(credits: seq<(string, string)>, key: string -> string, value: string -> V, i: nat)
    requires i < |credits|
    requires forall j :: i < j < |credits| ==> key(credits[j].0) != key(credits[i].0)
    ensures key(credits[i].0) in CreditTags(credits, key, value)
    ensures CreditTags(credits, key, value)[key(credits[i].0)] == value(credits[i].1)
  {
    if i < |credits| - 1 {
      var init := credits[..|credits| - 1];
      assert init[i] == credits[i];
      CreditTagsValue(init, key, value, i);
    }
  }

  /** The seven standard atoms `download`/`downloadAndTag` assign first:
      album, artist, album artist, the date cut to ten characters, the
      `(episode, catalog count)` track pair, media kind 2 and the title. */
  function StandardAtoms(show: ShowMeta, ep: EpMeta): map<string, Mp4Value> {
    map[AlbumKey := Str(show.title), ArtistKey := Str(show.author), AlbumArtistKey := Str(show.author),
        DayKey := Str(Prefix(ep.date, 10)), TrackKey := TrackPair(ep.epNo, show.nEpisodes),
        KindKey := MediaKind(2), TitleKey := Str(ep.title)]
  }

  const AgeRatingName := "Age rating"

  /** The freeform show-information atoms; the age rating only when `withAge`. */
  function InfoAtoms(show: ShowMeta, ep: EpMeta, withAge: bool): map<string, Mp4Value> {
    map[FreeformKey("Fictional") := Freeform(PyBool(show.fictional)),
        FreeformKey("Author") := Freeform(show.author),
        FreeformKey("Language") := Freeform(show.lang),
        FreeformKey("Type") := Freeform(show.contentType),
        FreeformKey("Season") := Freeform(IntToString(ep.seasonNo))]
    + (if withAge then map[FreeformKey(AgeRatingName) := Freeform(show.ageRating)] else map[])
  }

  /** With the age rating, the information atoms are those without it and
      the age atom. */
  lemma InfoAtomsWithAge(show: ShowMeta, ep: EpMeta)
    ensures InfoAtoms(show, ep, true) == InfoAtoms(show, ep, false)[FreeformKey(AgeRatingName) := Freeform(show.ageRating)]
  {
  }

  /** The atom block after tagging: the block the file had, without the
      encoder atom, overwritten by the standard and information atoms, then
      by one atom per credit role, then the cover. */
  function Mp4Atoms(existing: map<string, Mp4Value>, show: ShowMeta, ep: EpMeta, cover: seq<bv8>, withAge: bool)
    : map<string, Mp4Value>
  {
    ((existing - {EncoderKey}) + StandardAtoms(show, ep) + InfoAtoms(show, ep, withAge)
     + CreditTags(show.credits, Mp4CreditKey, Mp4CreditValue))[CoverKey := Covers(cover)]
  }

  /** Every credit atom is a freeform atom. */
  lemma CreditKeysAreFreeform(credits: seq<(string, string)>)
    ensures forall k :: k in CreditTags(credits, Mp4CreditKey, Mp4CreditValue) ==> |k| >= |FreeformPrefix| && k[..|FreeformPrefix|] == FreeformPrefix
  {
    CreditTagsKeys(credits, Mp4CreditKey, Mp4CreditValue);
  }

  /** What every tagged MP4 file holds whatever the credits: the track pair
      is the episode number over the catalog's episode count, the date is
      the first ten characters of the episode date, the encoder atom is
      gone and the cover is embedded. */
  lemma Mp4AtomsFacts(existing: map<string, Mp4Value>, show: ShowMeta, ep: EpMeta, cover: seq<bv8>, withAge: bool)
    ensures var a := Mp4Atoms(existing, show, ep, cover, withAge);
      TrackKey in a && a[TrackKey] == TrackPair(ep.epNo, show.nEpisodes) &&
      DayKey in a && a[DayKey] == Str(Prefix(ep.date, 10)) &&
      AlbumKey in a && a[AlbumKey] == Str(show.title) &&
      ArtistKey in a && a[ArtistKey] == Str(show.author) &&
      AlbumArtistKey in a && a[AlbumArtistKey] == Str(show.author) &&
      TitleKey in a && a[TitleKey] == Str(ep.title) &&
      KindKey in a && a[KindKey] == MediaKind(2) &&
      EncoderKey !in a &&
      CoverKey in a && a[CoverKey] == Covers(cover)
  {
    StandardAtomsValues(show, ep);
    StandardAtomKept(existing, show, ep, cover, withAge, TrackKey);
    StandardAtomKept(existing, show, ep, cover, withAge, DayKey);
    StandardAtomKept(existing, show, ep, cover, withAge, AlbumKey);
    StandardAtomKept(existing, show, ep, cover, withAge, ArtistKey);
    StandardAtomKept(existing, show, ep, cover, withAge, AlbumArtistKey);
    StandardAtomKept(existing, show, ep, cover, withAge, TitleKey);
    StandardAtomKept(existing, show, ep, cover, withAge, KindKey);
    ShortKeyAtoms(existing, show, ep, cover, withAge, EncoderKey);
    EncoderNotStandard(show, ep);
  }

  /** The seven standard atoms and their values. */
  lemma StandardAtomsValues(show: ShowMeta, ep: EpMeta)
    ensures var std := StandardAtoms(show, ep);
      TrackKey in std && std[TrackKey] == TrackPair(ep.epNo, show.nEpisodes) &&
      DayKey in std && std[DayKey] == Str(Prefix(ep.date, 10)) &&
      AlbumKey in std && std[AlbumKey] == Str(show.title) &&
      ArtistKey in std && std[ArtistKey] == Str(show.author) &&
      AlbumArtistKey in std && std[AlbumArtistKey] == Str(show.author) &&
      TitleKey in std && std[TitleKey] == Str(ep.title) &&
      KindKey in std && std[KindKey] == MediaKind(2)
  {
  }

  /** A standard atom ends up in the tagged block unchanged. */
  lemma StandardAtomKept(existing: map<string, Mp4Value>, show: ShowMeta, ep: EpMeta, cover: seq<bv8>, withAge: bool, k: string)
    requires k in StandardAtoms(show, ep) && |k| < |FreeformPrefix| && k != CoverKey
    ensures k in Mp4Atoms(existing, show, ep, cover, withAge)
    ensures Mp4Atoms(existing, show, ep, cover, withAge)[k] == StandardAtoms(show, ep)[k]
  {
    ShortKeyAtoms(existing, show, ep, cover, withAge, k);
  }

  /** The encoder atom is none of the standard atoms. */
  lemma EncoderNotStandard(show: ShowMeta, ep: EpMeta)
    ensures EncoderKey !in StandardAtoms(show, ep)
  {
    assert EncoderKey != AlbumKey && EncoderKey != ArtistKey && EncoderKey != DayKey && EncoderKey != TitleKey;
    assert EncoderKey != TrackKey && EncoderKey != KindKey && EncoderKey != AlbumArtistKey;
  }

  /** An atom with a name shorter than the freeform prefix, other than the
      cover, comes from the file's own block or the standard atoms. */
  lemma ShortKeyAtoms(existing: map<string, Mp4Value>, show: ShowMeta, ep: EpMeta, cover: seq<bv8>, withAge: bool, k: string)
    requires |k| < |FreeformPrefix| && k != CoverKey
    ensures var a := Mp4Atoms(existing, show, ep, cover, withAge);
      var base := (existing - {EncoderKey}) + StandardAtoms(show, ep);
      (k in a <==> k in base) && (k in a ==> a[k] == base[k])
  {
    var info := InfoAtoms(show, ep, withAge);
    var credits := CreditTags(show.credits, Mp4CreditKey, Mp4CreditValue);
    var base := (existing - {EncoderKey}) + StandardAtoms(show, ep);
    InfoKeysAreFreeform(show, ep, withAge);
    CreditKeysAreFreeform(show.credits);
    assert k !in info;
    assert k !in credits;
    var all := base + info + credits;
    assert k in all <==> k in base;
    assert k in all ==> all[k] == base[k];
  }

  lemma InfoKeysAreFreeform(show: ShowMeta, ep: EpMeta, withAge: bool)
    ensures forall k :: k in InfoAtoms(show, ep, withAge) ==> |k| >= |FreeformPrefix|
  {
    var fixed := map[FreeformKey("Fictional") := Freeform(PyBool(show.fictional)),
        FreeformKey("Author") := Freeform(show.author),
        FreeformKey("Language") := Freeform(show.lang),
        FreeformKey("Type") := Freeform(show.contentType),
        FreeformKey("Season") := Freeform(IntToString(ep.seasonNo))];
    assert forall k :: k in fixed ==> |k| >= |FreeformPrefix|;
  }

  /** A credit role's atom holds that role's joined names unless a later
      role has the same credit name. */
  lemma Mp4AtomsCredit(existing: map<string, Mp4Value>, show: ShowMeta, ep: EpMeta, cover: seq<bv8>, withAge: bool, i: nat)
    requires i < |show.credits|
    requires forall j :: i < j < |show.credits| ==> Mp4CreditKey(show.credits[j].0) != Mp4CreditKey(show.credits[i].0)
    ensures var a := Mp4Atoms(existing, show, ep, cover, withAge);
      Mp4CreditKey(show.credits[i].0) in a && a[Mp4CreditKey(show.credits[i].0)] == Freeform(show.credits[i].1)
  {
    CreditTagsValue(show.credits, Mp4CreditKey, Mp4CreditValue, i);
    assert Mp4CreditKey(show.credits[i].0) != CoverKey by {
      assert |CoverKey| < |FreeformPrefix|;
    }
  }

  /** When neither the file nor a credit role already provides it, the
      age-rating atom is there exactly when it was asked for, holding the
      show's age rating. */
  lemma Mp4AtomsAgeRating(existing: map<string, Mp4Value>, show: ShowMeta, ep: EpMeta, cover: seq<bv8>, withAge: bool)
    requires FreeformKey(AgeRatingName) !in existing
    requires forall i :: 0 <= i < |show.credits| ==> Mp4CreditKey(show.credits[i].0) != FreeformKey(AgeRatingName)
    ensures var a := Mp4Atoms(existing, show, ep, cover, withAge);
      (FreeformKey(AgeRatingName) in a <==> withAge) &&
      (withAge ==> a[FreeformKey(AgeRatingName)] == Freeform(show.ageRating))
  {
    var age := FreeformKey(AgeRatingName);
    var info := InfoAtoms(show, ep, withAge);
    var credits := CreditTags(show.credits, Mp4CreditKey, Mp4CreditValue);
    CreditTagsKeys(show.credits, Mp4CreditKey, Mp4CreditValue);
    assert age !in credits;
    AgeNotStandard(show, ep);
    AgeInfo(show, ep, withAge);
    var all := (existing - {EncoderKey}) + StandardAtoms(show, ep) + info + credits;
    assert age in all <==> withAge;
    assert withAge ==> all[age] == Freeform(show.ageRating);
    assert age != CoverKey;
  }

  lemma AgeNotStandard(show: ShowMeta, ep: EpMeta)
    ensures FreeformKey(AgeRatingName) !in StandardAtoms(show, ep)
  {
    var age := FreeformKey(AgeRatingName);
    assert |AlbumKey| < |age| && |ArtistKey| < |age| && |AlbumArtistKey| < |age| && |DayKey| < |age|;
    assert |TrackKey| < |age| && |KindKey| < |age| && |TitleKey| < |age|;
  }

  /** The age-rating atom is among the information atoms exactly when asked for. */
  lemma AgeInfo(show: ShowMeta, ep: EpMeta, withAge: bool)
    ensures FreeformKey(AgeRatingName) in InfoAtoms(show, ep, withAge) <==> withAge
    ensures withAge ==> InfoAtoms(show, ep, withAge)[FreeformKey(AgeRatingName)] == Freeform(show.ageRating)
  {
    FreeformKeysDiffer(AgeRatingName, "Fictional");
    FreeformKeysDiffer(AgeRatingName, "Author");
    FreeformKeysDiffer(AgeRatingName, "Language");
    FreeformKeysDiffer(AgeRatingName, "Type");
    FreeformKeysDiffer(AgeRatingName, "Season");
  }

  lemma FreeformKeysDiffer(a: string, b: string)
    requires |a| != |b|
    ensures FreeformKey(a) != FreeformKey(b)
  {
    assert |FreeformKey(a)| == |FreeformPrefix| + |a|;
  }

  /** Tagging an already tagged block again with the same inputs changes
      nothing: every assigned atom is overwritten with the value it holds. */
  lemma Mp4AtomsIdempotent(existing: map<string, Mp4Value>, show: ShowMeta, ep: EpMeta, cover: seq<bv8>, withAge: bool)
    ensures Mp4Atoms(Mp4Atoms(existing, show, ep, cover, withAge), show, ep, cover, withAge)
         == Mp4Atoms(existing, show, ep, cover, withAge)
  {
    var m := Mp4Atoms(existing, show, ep, cover, withAge);
    Mp4AtomsFacts(existing, show, ep, cover, withAge);
    RemoveAbsent(m, EncoderKey);
    OverlayAgain(existing - {EncoderKey}, StandardAtoms(show, ep), InfoAtoms(show, ep, withAge),
                 CreditTags(show.credits, Mp4CreditKey, Mp4CreditValue), CoverKey, Covers(cover));
  }

  lemma RemoveAbsent<V>(m: map<string, V>, k: string)
    requires k !in m
    ensures m - {k} == m
  {
  }

  /** Overlaying three blocks and setting one key, done twice, is done once. */
  lemma OverlayAgain<V>(base: map<string, V>, s: map<string, V>, i: map<string, V>, c: map<string, V>, k: string, v: V)
    ensures (((((base + s) + i) + c)[k := v] + s) + i + c)[k := v] == (((base + s) + i) + c)[k := v]
  {
  }

  /** The Vorbis comments `download` assigns in `kuku_z.py`, before the
      credits. The names are already lower case. */
  function StandardComments(show: ShowMeta, ep: EpMeta): map<string, string> {
    map["album" := show.title, "artist" := show.author, "albumartist" := show.author,
        "date" := Prefix(ep.date, 10), "tracknumber" := IntToString(ep.epNo),
        "totaltracks" := IntToString(show.nEpisodes), "title" := ep.title,
        "description" := (if show.fictional then "Fictional" else ""),
        "author" := show.author, "language" := show.lang, "type" := show.contentType,
        "season" := IntToString(ep.seasonNo), "age_rating" := show.ageRating]
  }

  /** The comment block after tagging: the file's own comments overwritten
      by the standard ones, then by one comment per credit role. */
  function FlacComments(existing: map<string, string>, show: ShowMeta, ep: EpMeta): map<string, string> {
    existing + StandardComments(show, ep) + CreditTags(show.credits, FlacCreditKey, FlacCreditValue)
  }

  /** A standard comment survives the credits loop unless a credit role is
      named like it. */
  lemma StandardCommentKept(existing: map<string, string>, show: ShowMeta, ep: EpMeta, k: string)
    requires k in StandardComments(show, ep)
    requires forall i :: 0 <= i < |show.credits| ==> FlacCreditKey(show.credits[i].0) != k
    ensures k in FlacComments(existing, show, ep)
    ensures FlacComments(existing, show, ep)[k] == StandardComments(show, ep)[k]
  {
    CreditTagsKeys(show.credits, FlacCreditKey, FlacCreditValue);
  }

  /** Writing the same comments twice gives the comments written once. */
  lemma FlacCommentsIdempotent(existing: map<string, string>, show: ShowMeta, ep: EpMeta)
    ensures FlacComments(FlacComments(existing, show, ep), show, ep) == FlacComments(existing, show, ep)
  {
    OverlayTwoAgain(existing, StandardComments(show, ep), CreditTags(show.credits, FlacCreditKey, FlacCreditValue));
  }

  lemma OverlayTwoAgain<V>(base: map<string, V>, s: map<string, V>, c: map<string, V>)
    ensures (base + s + c) + s + c == base + s + c
  {
  }

  /** No credit role's comment name is `k`. */
  predicate NoCreditNamed(show: ShowMeta, k: string) {
    forall i :: 0 <= i < |show.credits| ==> FlacCreditKey(show.credits[i].0) != k
  }

  /** What every tagged FLAC file holds when no credit role is named like
      those comments: the track number and the total (the catalog's count,
      not the number of episodes found), the date cut to ten characters,
      and a description that only says whether the show is fiction. */
  /** The four standard comments `Tags.FlacCommentsFacts` speaks of. */
  lemma StandardCommentsValues(show: ShowMeta, ep: EpMeta)
    ensures var std := StandardComments(show, ep);
      "tracknumber" in std && std["tracknumber"] == IntToString(ep.epNo) &&
      "totaltracks" in std && std["totaltracks"] == IntToString(show.nEpisodes) &&
      "date" in std && std["date"] == Prefix(ep.date, 10) &&
      "description" in std && std["description"] == (if show.fictional then "Fictional" else "")
  {
  }

  lemma FlacCommentsFacts(existing: map<string, string>, show: ShowMeta, ep: EpMeta)
    requires NoCreditNamed(show, "tracknumber") && NoCreditNamed(show, "totaltracks")
    requires NoCreditNamed(show, "date") && NoCreditNamed(show, "description")
    ensures var c := FlacComments(existing, show, ep);
      "tracknumber" in c && c["tracknumber"] == IntToString(ep.epNo) &&
      "totaltracks" in c && c["totaltracks"] == IntToString(show.nEpisodes) &&
      "date" in c && c["date"] == Prefix(ep.date, 10) && |c["date"]| <= 10 &&
      "description" in c && c["description"] == (if show.fictional then "Fictional" else "")
  {
    StandardCommentsValues(show, ep);
    StandardCommentKept(existing, show, ep, "tracknumber");
    StandardCommentKept(existing, show, ep, "totaltracks");
    StandardCommentKept(existing, show, ep, "date");
    StandardCommentKept(existing, show, ep, "description");
  }
}
