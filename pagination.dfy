/** The `while True` pagination loop of `downloadAlbum`/`downAlbum`: request
    page 1, 2, ..., extend the episode list with each page's episodes, and
    stop after the first page whose `has_more` is false. The remote catalog
    is given as the sequence of pages it would answer, page `p` at index
    `p - 1`. */
module Pagination {
  import opened Options

  datatype Page<E> = Page(episodes: seq<E>, hasMore: bool)

  /** Index of the first page whose `has_more` is false, if any. */
  function StopIndex<E>(pages: seq<Page<E>>): (r: Option<nat>)
    ensures r.Some? ==> r.value < |pages| && !pages[r.value].hasMore
    ensures r.Some? ==> forall j :: 0 <= j < r.value ==> pages[j].hasMore
    ensures r.None? <==> forall j :: 0 <= j < |pages| ==> pages[j].hasMore
  {
    if pages == [] then None
    else if !pages[0].hasMore then Some(0)
    else match StopIndex(pages[1..])
      case None => None
      case Some(k) => Some(k + 1)
  }

  /** The episodes of `pages`, page after page, duplicates kept. */
  function EpisodesOf<E>(pages: seq<Page<E>>): seq<E> {
    if pages == [] then [] else EpisodesOf(pages[..|pages| - 1]) + pages[|pages| - 1].episodes
  }

  /** Page numbers `1, 2, ..., n`. */
  function PageNumbers(n: nat): seq<nat> {
    seq(n, i => i + 1)
  }

  /** The loop. `requested` lists the page numbers asked for, in order;
      `complete` says a page with `has_more == false` was reached. If the
      given pages run out first, the source would ask for one page more and
      fail on its answer, which is reported as `complete == false`. */
  method FetchAllPages<E>(pages: seq<Page<E>>) returns (episodes: seq<E>, requested: seq<nat>, complete: bool)
    ensures complete <==> StopIndex(pages).Some?
    ensures complete ==> var k := StopIndex(pages).value;
      requested == PageNumbers(k + 1) && episodes == EpisodesOf(pages[..k + 1])
    ensures !complete ==> requested == PageNumbers(|pages| + 1) && episodes == EpisodesOf(pages)
  {
    episodes, requested, complete := [], [], false;
    var page := 1;
    while true
      invariant 1 <= page <= |pages| + 1
      invariant requested == PageNumbers(page - 1)
      invariant episodes == EpisodesOf(pages[..page - 1])
      invariant forall j :: 0 <= j < page - 1 ==> pages[j].hasMore
      decreases |pages| + 1 - page
    {
      requested := requested + [page];
      if page > |pages| {
        assert pages[..page - 1] == pages;
        return;
      }
      var data := pages[page - 1];
      assert pages[..page][..page - 1] == pages[..page - 1];
      episodes := episodes + data.episodes;
      page := page + 1;
      if !data.hasMore {
        complete := true;
        return;
      }
    }
  }

  /** Pages after the stopping page are never looked at. */
  lemma {:induction false} StopIgnoresLaterPages<E>(pages: seq<Page<E>>, later: seq<Page<E>>)
    requires StopIndex(pages).Some?
    ensures StopIndex(pages + later) == StopIndex(pages)
  {
    if pages[0].hasMore {
      assert (pages + later)[1..] == pages[1..] + later;
      StopIgnoresLaterPages(pages[1..], later);
    }
  }

  /** No deduplication: the episode list of two runs of pages is the two
      lists one after the other. */
  lemma {:induction false} EpisodesOfConcat<E>(a: seq<Page<E>>, b: seq<Page<E>>)
    ensures EpisodesOf(a + b) == EpisodesOf(a) + EpisodesOf(b)
  {
    if b == [] {
      assert a + b == a;
    } else {
      assert (a + b)[..|a + b| - 1] == a + b[..|b| - 1];
      EpisodesOfConcat(a, b[..|b| - 1]);
    }
  }

  /** The episode count is the sum of the pages' counts. */
  lemma {:induction false} EpisodesOfLength<E>(pages: seq<Page<E>>, counts: seq<nat>)
    requires |counts| == |pages| && forall i :: 0 <= i < |pages| ==> counts[i] == |pages[i].episodes|
    ensures |EpisodesOf(pages)| == Sum(counts)
  {
    if pages != [] {
      EpisodesOfLength(pages[..|pages| - 1], counts[..|counts| - 1]);
    }
  }

  function Sum(xs: seq<nat>): nat {
    if xs == [] then 0 else Sum(xs[..|xs| - 1]) + xs[|xs| - 1]
  }
}
