/** The tag assignments of the three download routines, statement by
    statement, each block proved to build the tag map of `Tags`. */
module Tagger {
  import opened Text
  import opened Catalog
  import opened Tags

  /** The seven `tag[...] = [...]` assignments of the standard MP4 atoms. */
  method AssignStandard(atoms0: map<string, Mp4Value>, show: ShowMeta, ep: EpMeta)
    returns (atoms: map<string, Mp4Value>)
    ensures atoms == atoms0 + StandardAtoms(show, ep)
  {
    atoms := atoms0;
    atoms := atoms[AlbumKey := Str(show.title)];
    atoms := atoms[ArtistKey := Str(show.author)];
    atoms := atoms[AlbumArtistKey := Str(show.author)];
    atoms := atoms[DayKey := Str(Prefix(ep.date, 10))];
    atoms := atoms[TrackKey := TrackPair(ep.epNo, show.nEpisodes)];
    atoms := atoms[KindKey := MediaKind(2)];
    atoms := atoms[TitleKey := Str(ep.title)];
  }

  /** The freeform show-information atoms; the age rating is assigned only
      when `withAge`. */
  method AssignInfo(atoms0: map<string, Mp4Value>, show: ShowMeta, ep: EpMeta, withAge: bool)
    returns (atoms: map<string, Mp4Value>)
    ensures atoms == atoms0 + InfoAtoms(show, ep, withAge)
  {
    atoms := atoms0;
    atoms := atoms[FreeformKey("Fictional") := Freeform(PyBool(show.fictional))];
    atoms := atoms[FreeformKey("Author") := Freeform(show.author)];
    atoms := atoms[FreeformKey("Language") := Freeform(show.lang)];
    atoms := atoms[FreeformKey("Type") := Freeform(show.contentType)];
    atoms := atoms[FreeformKey("Season") := Freeform(IntToString(ep.seasonNo))];
    assert atoms == atoms0 + InfoAtoms(show, ep, false);
    if withAge {
      InfoAtomsWithAge(show, ep);
      OverlayUpdate(atoms0, InfoAtoms(show, ep, false), FreeformKey(AgeRatingName), Freeform(show.ageRating));
      atoms := atoms[FreeformKey(AgeRatingName) := Freeform(show.ageRating)];
    }
  }

  /** `for cat in credits: tag["----:com.apple.iTunes:" + credit] = ...`,
      one atom per role in order. */
  method AssignCredits(atoms0: map<string, Mp4Value>, credits: seq<(string, string)>)
    returns (atoms: map<string, Mp4Value>)
    ensures atoms == atoms0 + CreditTags(credits, Mp4CreditKey, Mp4CreditValue)
  {
    atoms := atoms0;
    for i := 0 to |credits|
      invariant atoms == atoms0 + CreditTags(credits[..i], Mp4CreditKey, Mp4CreditValue)
    {
      CreditTagsStep(credits, i, Mp4CreditKey, Mp4CreditValue);
      OverlayUpdate(atoms0, CreditTags(credits[..i], Mp4CreditKey, Mp4CreditValue),
                    Mp4CreditKey(credits[i].0), Mp4CreditValue(credits[i].1));
      var credit := CreditName(credits[i].0);
      atoms := atoms[FreeformKey(credit) := Freeform(credits[i].1)];
    }
    assert credits[..|credits|] == credits;
  }

  /** The thirteen Vorbis comment assignments of the FLAC tagger. */
  method AssignComments(comments0: map<string, string>, show: ShowMeta, ep: EpMeta)
    returns (comments: map<string, string>)
    ensures comments == comments0 + StandardComments(show, ep)
  {
    comments := comments0;
    comments := comments["album" := show.title];
    comments := comments["artist" := show.author];
    comments := comments["albumartist" := show.author];
    comments := comments["date" := Prefix(ep.date, 10)];
    comments := comments["tracknumber" := IntToString(ep.epNo)];
    comments := comments["totaltracks" := IntToString(show.nEpisodes)];
    comments := comments["title" := ep.title];
    comments := comments["description" := if show.fictional then "Fictional" else ""];
    comments := comments["author" := show.author];
    comments := comments["language" := show.lang];
    comments := comments["type" := show.contentType];
    comments := comments["season" := IntToString(ep.seasonNo)];
    comments := comments["age_rating" := show.ageRating];
  }

  /** `for cat in credits: tag[credit] = ...` of the FLAC tagger. */
  method AssignCreditComments(comments0: map<string, string>, credits: seq<(string, string)>)
    returns (comments: map<string, string>)
    ensures comments == comments0 + CreditTags(credits, FlacCreditKey, FlacCreditValue)
  {
    comments := comments0;
    for i := 0 to |credits|
      invariant comments == comments0 + CreditTags(credits[..i], FlacCreditKey, FlacCreditValue)
    {
      CreditTagsStep(credits, i, FlacCreditKey, FlacCreditValue);
      OverlayUpdate(comments0, CreditTags(credits[..i], FlacCreditKey, FlacCreditValue),
                    FlacCreditKey(credits[i].0), FlacCreditValue(credits[i].1));
      var credit := CreditName(credits[i].0);
      comments := comments[FlacKey(credit) := credits[i].1];
    }
    assert credits[..|credits|] == credits;
  }
}
