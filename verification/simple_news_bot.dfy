/** simple_news_bot.py: the stand-alone reader that prints RSS summaries.
    `get_news` checks the source and category against its own table, reads
    the feed, and walks the first ten entries, skipping those that do not
    match the keyword and stopping after the fifth it prints.

    The printed text becomes the outcome `get_news` returns: the entries it
    printed, in order, and whether it printed the "no articles matching"
    line. A missing `title` or `link` makes feedparser raise, which ends the
    call; that is the `Aborted` outcome, holding the entries printed before.
    The feed download is the parameter `web`, from URL to entries. */
module SimpleNewsBot {
  import opened Wrappers
  import opened Seqs
  import opened Text
  import F = NewsSourceFetcher

  /** `SimpleNewsBot.RSS_FEEDS`, in declaration order. */
  const SimpleFeeds: seq<F.Source> := [
    F.Source("bbc", [
      F.Feed("general", "http://feeds.bbci.co.uk/news/rss.xml"),
      F.Feed("world", "http://feeds.bbci.co.uk/news/world/rss.xml"),
      F.Feed("technology", "http://feeds.bbci.co.uk/news/technology/rss.xml"),
      F.Feed("business", "http://feeds.bbci.co.uk/news/business/rss.xml"),
      F.Feed("science", "http://feeds.bbci.co.uk/news/science_and_environment/rss.xml")]),
    F.Source("cnn", [
      F.Feed("general", "http://rss.cnn.com/rss/cnn_topstories.rss"),
      F.Feed("world", "http://rss.cnn.com/rss/cnn_world.rss"),
      F.Feed("technology", "http://rss.cnn.com/rss/cnn_tech.rss")]),
    F.Source("guardian", [
      F.Feed("general", "https://www.theguardian.com/uk/rss"),
      F.Feed("world", "https://www.theguardian.com/world/rss"),
      F.Feed("technology", "https://www.theguardian.com/technology/rss")])
  ]

  /** Entries considered, and entries printed at most. */
  const WindowSize := 10
  const MaxShown := 5

  /** One printed entry: title, link, date ("N/A" when missing) and the
      summary, printed only when it is not empty. */
  datatype Shown = Shown(title: string, link: string, published: string, summary: string)

  /** What one call prints. */
  datatype NewsOutput =
    | UnknownSource(available: seq<string>)
    | UnknownCategory(available: seq<string>)
    | NoArticles
    | Listed(shown: seq<Shown>, noMatch: bool)
    | Aborted(shown: seq<Shown>)

  /** `if keyword:` — neither `None` nor the empty string. */
  predicate Truthy(keyword: Option<string>)
  {
    keyword.Some? && keyword.value != ""
  }

  /** `entry.get("summary", "")`. */
  function SummaryText(e: F.Entry): string
  {
    e.summary.GetOr("")
  }

  /** The keyword filter: no keyword keeps every entry; otherwise the
      lower-cased keyword must occur in the lower-cased title or summary. */
  predicate Selected(e: F.Entry, keyword: Option<string>)
  {
    !Truthy(keyword) ||
    (e.title.Some? &&
      (Occurs(Lower(e.title.value), Lower(keyword.value)) || Occurs(Lower(SummaryText(e)), Lower(keyword.value))))
  }

  /** Reaching this entry raises: its title is read by the filter or by the
      first print, and a selected entry's link is printed. */
  predicate Aborts(e: F.Entry, keyword: Option<string>)
  {
    e.title.None? || (Selected(e, keyword) && e.link.None?)
  }

  function ShowOf(e: F.Entry): Shown
  {
    Shown(e.title.GetOr(""), e.link.GetOr(""), e.published.GetOr("N/A"), SummaryText(e))
  }

  function Shows(es: seq<F.Entry>): (r: seq<Shown>)
    ensures |r| == |es|
    ensures forall k :: 0 <= k < |es| ==> r[k] == ShowOf(es[k])
  {
    seq(|es|, k requires 0 <= k < |es| => ShowOf(es[k]))
  }

  /** Where the walk over the entries stands. */
  datatype Progress = Going(shown: seq<Shown>) | Stopped(shown: seq<Shown>)

  /** One pass of the loop body: once five are printed or an entry raised,
      the entry changes nothing. */
  function Step(p: Progress, e: F.Entry, keyword: Option<string>): Progress
  {
    if p.Stopped? || |p.shown| >= MaxShown then p
    else if Aborts(e, keyword) then Stopped(p.shown)
    else if Selected(e, keyword) then Going(p.shown + [ShowOf(e)])
    else p
  }

  /** The walk over `es`, in feed order. */
  function Run(es: seq<F.Entry>, keyword: Option<string>): Progress
    decreases |es|
  {
    if es == [] then Going([]) else Step(Run(es[..|es| - 1], keyword), es[|es| - 1], keyword)
  }

  /** The first five selected entries: what the walk is meant to print. */
  function Picks(es: seq<F.Entry>, keyword: Option<string>): seq<F.Entry>
  {
    Take(Filter(es, x => Selected(x, keyword)), MaxShown)
  }

  /** What `get_news` prints for the entries of a known feed. */
  function FeedOutcome(entries: seq<F.Entry>, keyword: Option<string>): NewsOutput
  {
    if entries == [] then NoArticles
    else
      match Run(Take(entries, WindowSize), keyword)
      case Stopped(s) => Aborted(s)
      case Going(s) => Listed(s, s == [] && Truthy(keyword))
  }

  /** `get_news`. */
  function NewsOutcome(catalog: seq<F.Source>, source: string, category: string, keyword: Option<string>,
                       web: string -> seq<F.Entry>): NewsOutput
  {
    match F.FindSource(catalog, source)
    case None => UnknownSource(F.Names(catalog))
    case Some(feeds) =>
      match F.FindFeed(feeds, category)
      case None => UnknownCategory(F.CategoryNames(feeds))
      case Some(url) => FeedOutcome(web(url), keyword)
  }

  // ------------------------------------------------------------ the walk

  lemma RunSnoc(es: seq<F.Entry>, e: F.Entry, keyword: Option<string>)
    ensures Run(es + [e], keyword) == Step(Run(es, keyword), e, keyword)
  {
    assert (es + [e])[..|es|] == es;
  }

  /** A walk that has stopped, or printed five, ignores whatever follows. */
  lemma {:induction false} RunSettled(es: seq<F.Entry>, more: seq<F.Entry>, keyword: Option<string>)
    requires Run(es, keyword).Stopped? || |Run(es, keyword).shown| >= MaxShown
    ensures Run(es + more, keyword) == Run(es, keyword)
    decreases |more|
  {
    if more == [] {
      assert es + more == es;
    } else {
      var init := more[..|more| - 1];
      RunSettled(es, init, keyword);
      assert es + more == (es + init) + [more[|more| - 1]];
      RunSnoc(es + init, more[|more| - 1], keyword);
    }
  }

  /** One entry more for the first five selected. */
  lemma PicksSnoc(es: seq<F.Entry>, e: F.Entry, keyword: Option<string>)
    ensures Picks(es + [e], keyword) ==
      if |Picks(es, keyword)| < MaxShown && Selected(e, keyword) then Picks(es, keyword) + [e] else Picks(es, keyword)
  {
    assert (es + [e])[..|es|] == es;
    var before := Filter(es, x => Selected(x, keyword));
    var after := Filter(es + [e], x => Selected(x, keyword));
    assert after == before + (if Selected(e, keyword) then [e] else []);
    if |before| >= MaxShown {
      TakeOfPrefix(before, after, MaxShown);
    }
  }

  lemma ShowsSnoc(es: seq<F.Entry>, e: F.Entry)
    ensures Shows(es + [e]) == Shows(es) + [ShowOf(e)]
  {
  }

  lemma ShowsPrefix(a: seq<F.Entry>, b: seq<F.Entry>)
    requires a <= b
    ensures Shows(a) <= Shows(b)
  {
  }

  /** While no entry raised, the walk has printed exactly the first five
      selected entries, in feed order; after one raised, a prefix of them. */
  lemma {:induction false} RunPrintsFirstSelected(es: seq<F.Entry>, keyword: Option<string>)
    ensures Run(es, keyword).Going? ==> Run(es, keyword).shown == Shows(Picks(es, keyword))
    ensures Run(es, keyword).shown <= Shows(Picks(es, keyword))
    decreases |es|
  {
    if es != [] {
      var init := es[..|es| - 1];
      var e := es[|es| - 1];
      assert es == init + [e];
      RunPrintsFirstSelected(init, keyword);
      RunSnoc(init, e, keyword);
      PicksSnoc(init, e, keyword);
      var p := Run(init, keyword);
      var before := Picks(init, keyword);
      ShowsSnoc(before, e);
      ShowsPrefix(before, Picks(es, keyword));
      if p.Going? && |p.shown| < MaxShown {
        assert |before| < MaxShown;
      }
    }
  }

  /** No more than five entries are ever printed. */
  lemma RunPrintsAtMostFive(es: seq<F.Entry>, keyword: Option<string>)
    ensures |Run(es, keyword).shown| <= MaxShown
  {
    RunPrintsFirstSelected(es, keyword);
  }

  /** The walk raises only on an entry that raises. */
  lemma {:induction false} CleanRunGoesOn(es: seq<F.Entry>, keyword: Option<string>)
    requires forall k :: 0 <= k < |es| ==> !Aborts(es[k], keyword)
    ensures Run(es, keyword).Going?
    decreases |es|
  {
    if es != [] {
      CleanRunGoesOn(es[..|es| - 1], keyword);
    }
  }

  /** With a keyword, every printed entry has it, lower-cased, in its
      lower-cased title or summary. */
  lemma KeywordInEveryPrinted(es: seq<F.Entry>, keyword: Option<string>)
    requires Truthy(keyword)
    ensures forall x :: x in Run(es, keyword).shown ==>
      Occurs(Lower(x.title), Lower(keyword.value)) || Occurs(Lower(x.summary), Lower(keyword.value))
  {
    RunPrintsFirstSelected(es, keyword);
    var sel := Picks(es, keyword);
    forall x | x in Run(es, keyword).shown
      ensures Occurs(Lower(x.title), Lower(keyword.value)) || Occurs(Lower(x.summary), Lower(keyword.value))
    {
      var k :| 0 <= k < |Run(es, keyword).shown| && Run(es, keyword).shown[k] == x;
      assert x == ShowOf(sel[k]);
      assert sel[k] in Filter(es, e => Selected(e, keyword));
      assert Selected(sel[k], keyword);
    }
  }

  // ----------------------------------------------------- the whole call

  /** An unknown source, or an unknown category of a known source, is
      reported before anything is fetched. */
  lemma UnknownInputsPrintNoEntry(catalog: seq<F.Source>, source: string, category: string,
                                  keyword: Option<string>, web: string -> seq<F.Entry>)
    ensures var r := NewsOutcome(catalog, source, category, keyword, web);
      && (r.UnknownSource? <==> source !in F.Names(catalog))
      && (r.UnknownCategory? <==>
            source in F.Names(catalog) && category !in F.CategoryNames(F.FindSource(catalog, source).value))
  {
  }

  /** Entries after the tenth never change what is printed. */
  lemma OnlyFirstTenMatter(entries: seq<F.Entry>, extra: seq<F.Entry>, keyword: Option<string>)
    requires |entries| >= WindowSize
    ensures FeedOutcome(entries + extra, keyword) == FeedOutcome(entries, keyword)
  {
    assert Take(entries + extra, WindowSize) == Take(entries, WindowSize);
  }

  /** When no entry of the window raises, the call prints the first five
      selected entries of the first ten, in order, and prints "no articles
      matching" exactly when a keyword was given and none of the ten
      matched. */
  lemma CleanFeedListing(entries: seq<F.Entry>, keyword: Option<string>)
    requires entries != []
    requires forall k :: 0 <= k < |Take(entries, WindowSize)| ==> !Aborts(Take(entries, WindowSize)[k], keyword)
    ensures var window := Take(entries, WindowSize);
      var sel := Filter(window, x => Selected(x, keyword));
      && FeedOutcome(entries, keyword) == Listed(Shows(Picks(window, keyword)), sel == [] && Truthy(keyword))
      && (FeedOutcome(entries, keyword).noMatch <==>
            Truthy(keyword) && forall k :: 0 <= k < |window| ==> !Selected(window[k], keyword))
  {
    var window := Take(entries, WindowSize);
    var sel := Filter(window, x => Selected(x, keyword));
    CleanRunGoesOn(window, keyword);
    RunPrintsFirstSelected(window, keyword);
    assert Shows(Picks(window, keyword)) == [] <==> sel == [];
    if sel != [] {
      var e := sel[0];
      assert e in window && Selected(e, keyword);
    } else {
      forall k | 0 <= k < |window|
        ensures !Selected(window[k], keyword)
      {
        assert window[k] in window;
      }
    }
  }

  /** The table: three sources; cnn and guardian have no business feed. */
  lemma SimpleFeedsTable()
    ensures F.Names(SimpleFeeds) == ["bbc", "cnn", "guardian"]
    ensures F.FindSource(SimpleFeeds, "cnn") == Some(SimpleFeeds[1].feeds)
    ensures F.CategoryNames(SimpleFeeds[1].feeds) == ["general", "world", "technology"]
  {
  }

  // ---------------------------------------------------------- the method

  /** `get_news`, with the printing replaced by the returned outcome. */
  method GetNews(catalog: seq<F.Source>, source: string, category: string, keyword: Option<string>,
                 web: string -> seq<F.Entry>) returns (r: NewsOutput)
    ensures r == NewsOutcome(catalog, source, category, keyword, web)
  {
    var feeds := F.FindSource(catalog, source);
    if feeds.None? {
      return UnknownSource(F.Names(catalog));
    }
    var url := F.FindFeed(feeds.value, category);
    if url.None? {
      return UnknownCategory(F.CategoryNames(feeds.value));
    }
    var entries := web(url.value);
    if entries == [] {
      return NoArticles;
    }
    var p := WalkEntries(Take(entries, WindowSize), keyword);
    if p.Stopped? {
      return Aborted(p.shown);
    }
    return Listed(p.shown, |p.shown| == 0 && Truthy(keyword));
  }

  /** The `for entry in feed.entries[:10]` loop: `continue` past an entry
      that does not match, stop after the fifth printed, and stop when an
      entry raises. */
  method WalkEntries(window: seq<F.Entry>, keyword: Option<string>) returns (p: Progress)
    ensures p == Run(window, keyword)
  {
    var shown: seq<Shown> := [];
    var count := 0;
    var i := 0;
    while i < |window|
      invariant 0 <= i <= |window|
      invariant count == |shown| < MaxShown
      invariant Run(window[..i], keyword) == Going(shown)
    {
      var e := window[i];
      assert window[..i + 1] == window[..i] + [e];
      RunSnoc(window[..i], e, keyword);
      assert window[..i + 1] + window[i + 1..] == window;
      if Truthy(keyword) {
        if e.title.None? {
          RunSettled(window[..i + 1], window[i + 1..], keyword);
          return Stopped(shown);
        }
        var keywordLower := Lower(keyword.value);
        if !Occurs(Lower(e.title.value), keywordLower) && !Occurs(Lower(SummaryText(e)), keywordLower) {
          i := i + 1;
          continue;
        }
      }
      count := count + 1;
      if e.title.None? || e.link.None? {
        RunSettled(window[..i + 1], window[i + 1..], keyword);
        return Stopped(shown);
      }
      shown := shown + [ShowOf(e)];
      if count >= MaxShown {
        RunSettled(window[..i + 1], window[i + 1..], keyword);
        return Going(shown);
      }
      i := i + 1;
    }
    assert window[..i] == window;
    return Going(shown);
  }
}
