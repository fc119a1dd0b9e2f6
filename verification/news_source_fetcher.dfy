/** The feed catalog and article selection of src/source/newsSourceFetcher.py.

    A feed is not fetched: the parsed entries behind every address are a
    parameter `web: string -> seq<Entry>` (what `feedparser.parse(url).entries`
    would give). A catalog is a sequence of sources, so that the order of
    Python's dictionary keys (used in error messages and in the cross-source
    scan) is kept. The operations take the catalog as a parameter; the
    fetcher's own table `RSS_FEEDS` is the constant `RssFeeds`. */
module NewsSourceFetcher {
  import opened Wrappers
  import opened Seqs
  import opened Text

  datatype Feed = Feed(category: string, url: string)
  datatype Source = Source(name: string, feeds: seq<Feed>)

  /** `RSS_FEEDS`, in declaration order. */
  const RssFeeds: seq<Source> := [
    Source("bbc", [
      Feed("general", "http://feeds.bbci.co.uk/news/rss.xml"),
      Feed("world", "http://feeds.bbci.co.uk/news/world/rss.xml"),
      Feed("uk", "http://feeds.bbci.co.uk/news/uk/rss.xml"),
      Feed("business", "http://feeds.bbci.co.uk/news/business/rss.xml"),
      Feed("politics", "http://feeds.bbci.co.uk/news/politics/rss.xml"),
      Feed("health", "http://feeds.bbci.co.uk/news/health/rss.xml"),
      Feed("education", "http://feeds.bbci.co.uk/news/education/rss.xml"),
      Feed("science", "http://feeds.bbci.co.uk/news/science_and_environment/rss.xml"),
      Feed("technology", "http://feeds.bbci.co.uk/news/technology/rss.xml"),
      Feed("entertainment", "http://feeds.bbci.co.uk/news/entertainment_and_arts/rss.xml")]),
    Source("guardian", [
      Feed("general", "https://www.theguardian.com/world/rss"),
      Feed("world", "https://www.theguardian.com/world/rss"),
      Feed("uk", "https://www.theguardian.com/uk-news/rss"),
      Feed("business", "https://www.theguardian.com/business/rss"),
      Feed("technology", "https://www.theguardian.com/technology/rss"),
      Feed("science", "https://www.theguardian.com/science/rss"),
      Feed("environment", "https://www.theguardian.com/environment/rss"),
      Feed("politics", "https://www.theguardian.com/politics/rss")]),
    Source("nytimes", [
      Feed("general", "https://rss.nytimes.com/services/xml/rss/nyt/HomePage.xml"),
      Feed("world", "https://rss.nytimes.com/services/xml/rss/nyt/World.xml"),
      Feed("us", "https://rss.nytimes.com/services/xml/rss/nyt/US.xml"),
      Feed("business", "https://rss.nytimes.com/services/xml/rss/nyt/Business.xml"),
      Feed("technology", "https://rss.nytimes.com/services/xml/rss/nyt/Technology.xml"),
      Feed("science", "https://rss.nytimes.com/services/xml/rss/nyt/Science.xml"),
      Feed("health", "https://rss.nytimes.com/services/xml/rss/nyt/Health.xml")]),
    Source("techcrunch", [
      Feed("general", "https://techcrunch.com/feed/"),
      Feed("startups", "https://techcrunch.com/category/startups/feed/"),
      Feed("ai", "https://techcrunch.com/category/artificial-intelligence/feed/"),
      Feed("apps", "https://techcrunch.com/category/apps/feed/"),
      Feed("security", "https://techcrunch.com/category/security/feed/")]),
    Source("arstechnica", [
      Feed("general", "https://feeds.arstechnica.com/arstechnica/index"),
      Feed("technology", "https://feeds.arstechnica.com/arstechnica/technology-lab"),
      Feed("science", "https://feeds.arstechnica.com/arstechnica/science"),
      Feed("policy", "https://feeds.arstechnica.com/arstechnica/tech-policy")]),
    Source("wired", [
      Feed("general", "https://www.wired.com/feed/rss"),
      Feed("business", "https://www.wired.com/feed/business/rss"),
      Feed("gear", "https://www.wired.com/feed/gear/rss"),
      Feed("science", "https://www.wired.com/feed/science/rss"),
      Feed("security", "https://www.wired.com/feed/security/rss")]),
    Source("reuters", [
      Feed("general", "https://www.reutersagency.com/feed/?taxonomy=best-topics&post_type=best"),
      Feed("world", "https://www.reutersagency.com/feed/?best-topics=international-news&post_type=best"),
      Feed("business", "https://www.reutersagency.com/feed/?best-topics=business-finance&post_type=best"),
      Feed("technology", "https://www.reutersagency.com/feed/?best-topics=tech&post_type=best")]),
    Source("aljazeera", [
      Feed("general", "https://www.aljazeera.com/xml/rss/all.xml"),
      Feed("news", "https://www.aljazeera.com/xml/rss/all.xml")])
  ]

  /** The names of a list of sources, in order. */
  function Names(catalog: seq<Source>): seq<string>
    decreases |catalog|
  {
    if catalog == [] then [] else [catalog[0].name] + Names(catalog[1..])
  }

  /** The category keys of one source, in order. */
  function CategoryNames(feeds: seq<Feed>): seq<string>
    decreases |feeds|
  {
    if feeds == [] then [] else [feeds[0].category] + CategoryNames(feeds[1..])
  }

  /** A Python dictionary: no key twice. */
  predicate DistinctNames(catalog: seq<Source>)
  {
    forall i, j :: 0 <= i < j < |catalog| ==> catalog[i].name != catalog[j].name
  }

  /** `RSS_FEEDS.get(name)`: the feeds of the source with that name. */
  function FindSource(catalog: seq<Source>, name: string): (r: Option<seq<Feed>>)
    ensures r.Some? <==> name in Names(catalog)
    ensures r.Some? ==> Source(name, r.value) in catalog
    decreases |catalog|
  {
    if catalog == [] then None
    else if catalog[0].name == name then Some(catalog[0].feeds)
    else FindSource(catalog[1..], name)
  }

  /** `RSS_FEEDS[source].get(category)`: the feed address. */
  function FindFeed(feeds: seq<Feed>, category: string): (r: Option<string>)
    ensures r.Some? <==> category in CategoryNames(feeds)
    ensures r.Some? ==> Feed(category, r.value) in feeds
    decreases |feeds|
  {
    if feeds == [] then None
    else if feeds[0].category == category then Some(feeds[0].url)
    else FindFeed(feeds[1..], category)
  }

  /** `get_available_sources`: each source mapped to its category keys. */
  function AvailableSources(catalog: seq<Source>): (r: map<string, seq<string>>)
    requires DistinctNames(catalog)
    ensures r.Keys == set i | 0 <= i < |catalog| :: catalog[i].name
    ensures forall i :: 0 <= i < |catalog| ==> r[catalog[i].name] == CategoryNames(catalog[i].feeds)
  {
    map i | 0 <= i < |catalog| :: catalog[i].name := CategoryNames(catalog[i].feeds)
  }

  /** The listing agrees with the lookup the fetch uses. */
  lemma {:induction false} AvailableSourcesAgreeWithLookup(catalog: seq<Source>, name: string)
    requires DistinctNames(catalog)
    ensures name in AvailableSources(catalog) <==> FindSource(catalog, name).Some?
    ensures name in AvailableSources(catalog) ==>
      AvailableSources(catalog)[name] == CategoryNames(FindSource(catalog, name).value)
  {
    if FindSource(catalog, name).Some? {
      var i :| 0 <= i < |catalog| && catalog[i] == Source(name, FindSource(catalog, name).value);
    }
    if name in AvailableSources(catalog) {
      var i :| 0 <= i < |catalog| && catalog[i].name == name;
      FindSourceAt(catalog, i);
    }
  }

  /** With distinct names, the lookup of the i-th name finds the i-th source. */
  lemma {:induction false} FindSourceAt(catalog: seq<Source>, i: nat)
    requires DistinctNames(catalog) && i < |catalog|
    ensures FindSource(catalog, catalog[i].name) == Some(catalog[i].feeds)
    decreases i
  {
    if i > 0 {
      assert catalog[0].name != catalog[i].name;
      assert catalog[1..][i - 1] == catalog[i];
      FindSourceAt(catalog[1..], i - 1);
    }
  }

  /** `RSS_FEEDS` is a dictionary: its names are distinct. */
  lemma RssFeedsDistinct()
    ensures DistinctNames(RssFeeds)
  {
  }

  /** The source names of `RSS_FEEDS`, in order. */
  const CatalogNames: seq<string> := ["bbc", "guardian", "nytimes", "techcrunch", "arstechnica", "wired", "reuters", "aljazeera"]

  lemma RssFeedsNames()
    ensures Names(RssFeeds) == CatalogNames
  {
    NamesAt(RssFeeds);
  }

  /** The names of a catalog, position by position. */
  lemma {:induction false} NamesAt(catalog: seq<Source>)
    ensures |Names(catalog)| == |catalog|
    ensures forall i :: 0 <= i < |catalog| ==> Names(catalog)[i] == catalog[i].name
    decreases |catalog|
  {
    if catalog != [] {
      NamesAt(catalog[1..]);
    }
  }

  /** No source name in `RSS_FEEDS` contains "_", the separator of the
      bot's callback data, and none ends in "y". */
  lemma CatalogNamesPlain()
    ensures forall n :: n in CatalogNames ==> '_' !in n && n != [] && n[|n| - 1] != 'y'
  {
  }

  /** A listed source's name is among the names. */
  lemma {:induction false} NameInNames(catalog: seq<Source>, s: Source)
    requires s in catalog
    ensures s.name in Names(catalog)
    decreases |catalog|
  {
    if catalog[0] != s {
      NameInNames(catalog[1..], s);
    }
  }

  /** Every source has a "general" feed, the one the cross-source search reads. */
  lemma EveryRssSourceHasGeneral()
    ensures forall s :: s in RssFeeds ==> "general" in CategoryNames(s.feeds)
  {
    forall s | s in RssFeeds ensures "general" in CategoryNames(s.feeds) {
      assert s.feeds != [] && s.feeds[0].category == "general";
    }
  }

  // --------------------------------------------------------------- entries

  /** One content block of an entry: `{"value": ...}`, the key optional. */
  datatype Content = Content(value: Option<string>)

  /** A parsed feed entry; feedparser leaves out every key the feed lacks. */
  datatype Entry = Entry(
    title: Option<string>,
    link: Option<string>,
    summary: Option<string>,
    description: Option<string>,
    content: Option<seq<Content>>,
    published: Option<string>,
    updated: Option<string>)

  /** The article dictionary the fetcher returns. */
  datatype Article = Article(
    title: string,
    summary: string,
    link: string,
    published: string,
    source: string,
    category: string)

  /** `NewsSourceFetcherError`, by the message it carries. */
  datatype FetchError =
    | UnknownSource(source: string, available: seq<string>)
    | UnknownCategory(category: string, source: string, available: seq<string>)
    | NoArticles(source: string, category: string)
    | FetchFailed(source: string)
    | SearchFailed(cause: FetchError)

  /** The summary text: `summary`, else `description`, else the value of the
      first content block, else ""; None when `content` is present but empty
      (indexing it raises). */
  function SummaryOf(e: Entry): (r: Option<string>)
    ensures e.summary.GetOr("") != "" ==> r == Some(e.summary.value)
    ensures e.summary.GetOr("") == "" && e.description.GetOr("") != "" ==> r == Some(e.description.value)
    ensures e.summary.GetOr("") == "" && e.description.GetOr("") == "" ==>
      r == match e.content
           case None => Some("")
           case Some(items) => if items == [] then None else Some(items[0].value.GetOr(""))
  {
    var s := e.summary.GetOr("");
    if s != "" then Some(s)
    else
      var d := e.description.GetOr("");
      if d != "" then Some(d)
      else
        var items := e.content.GetOr([Content(None)]);
        if items == [] then None else Some(items[0].value.GetOr(""))
  }

  /** One entry as an article, carrying the caller's own source and category
      strings; None when its summary cannot be read. */
  function Normalize(e: Entry, source: string, category: string): (r: Option<Article>)
    ensures r.Some? <==> SummaryOf(e).Some?
    ensures r.Some? ==> r.value.summary == SummaryOf(e).value
    ensures r.Some? ==> r.value.title == e.title.GetOr("No title") && r.value.link == e.link.GetOr("")
    ensures r.Some? ==> r.value.published == e.published.GetOr(e.updated.GetOr(""))
    ensures r.Some? ==> r.value.source == source && r.value.category == category
  {
    match SummaryOf(e)
    case None => None
    case Some(summary) =>
      Some(Article(e.title.GetOr("No title"), summary, e.link.GetOr(""),
                   e.published.GetOr(e.updated.GetOr("")), source, category))
  }

  /** Every entry normalised, or None if one of them cannot be. */
  function NormalizeAll(es: seq<Entry>, source: string, category: string): (r: Option<seq<Article>>)
    ensures r.Some? <==> forall i :: 0 <= i < |es| ==> Normalize(es[i], source, category).Some?
    ensures r.Some? ==> |r.value| == |es|
    ensures r.Some? ==> forall i :: 0 <= i < |es| ==> Normalize(es[i], source, category) == Some(r.value[i])
    decreases |es|
  {
    if es == [] then Some([])
    else
      var init := es[..|es| - 1];
      assert forall i :: 0 <= i < |init| ==> init[i] == es[i];
      match NormalizeAll(init, source, category)
      case None => None
      case Some(arts) =>
        match Normalize(es[|es| - 1], source, category)
        case None => None
        case Some(a) => Some(arts + [a])
  }

  /** The outcome of `fetch_news_articles` on a catalog. */
  function Fetch(catalog: seq<Source>, source: string, category: string, maxArticles: int, web: string -> seq<Entry>)
    : (r: Result<seq<Article>, FetchError>)
    ensures FindSource(catalog, Lower(source)).None? ==> r == Failure(UnknownSource(source, Names(catalog)))
    ensures r.Success? ==> FindSource(catalog, Lower(source)).Some?
    ensures r.Success? ==> FindFeed(FindSource(catalog, Lower(source)).value, Lower(category)).Some?
    ensures r.Success? ==>
      var entries := web(FindFeed(FindSource(catalog, Lower(source)).value, Lower(category)).value);
      && entries != []
      && |r.value| == SliceStop(|entries|, maxArticles)
      && forall i :: 0 <= i < |r.value| ==> Normalize(entries[i], source, category) == Some(r.value[i])
  {
    match FindSource(catalog, Lower(source))
    case None => Failure(UnknownSource(source, Names(catalog)))
    case Some(feeds) =>
      match FindFeed(feeds, Lower(category))
      case None => Failure(UnknownCategory(category, source, CategoryNames(feeds)))
      case Some(url) =>
        var entries := web(url);
        if entries == [] then Failure(NoArticles(source, category))
        else
          match NormalizeAll(entries[..SliceStop(|entries|, maxArticles)], source, category)
          case None => Failure(FetchFailed(source))
          case Some(arts) => Success(arts)
  }

  /** The feed a known source and category name. */
  function FeedUrl(catalog: seq<Source>, source: string, category: string): Option<string>
  {
    match FindSource(catalog, Lower(source))
    case None => None
    case Some(feeds) => FindFeed(feeds, Lower(category))
  }

  /** Which error the fetch raises: an unknown source, then an unknown
      category (listing that source's categories), then an empty feed, then
      an entry in the window whose summary cannot be read. Names are matched
      case-insensitively. */
  lemma FetchErrors(catalog: seq<Source>, source: string, category: string, maxArticles: int, web: string -> seq<Entry>)
    ensures var r := Fetch(catalog, source, category, maxArticles, web);
      && (r.Failure? && r.error.UnknownSource? <==> Lower(source) !in Names(catalog))
      && (r.Failure? && r.error.UnknownCategory? <==>
            Lower(source) in Names(catalog) && FeedUrl(catalog, source, category).None?)
      && (r.Failure? && r.error.UnknownCategory? ==>
            r.error.available == CategoryNames(FindSource(catalog, Lower(source)).value))
      && (r.Failure? && r.error.NoArticles? <==>
            FeedUrl(catalog, source, category).Some? && web(FeedUrl(catalog, source, category).value) == [])
      && (r.Failure? && r.error.FetchFailed? <==>
            FeedUrl(catalog, source, category).Some? &&
            var entries := web(FeedUrl(catalog, source, category).value);
            entries != [] &&
            exists i :: 0 <= i < SliceStop(|entries|, maxArticles) && SummaryOf(entries[i]).None?)
      && !(r.Failure? && r.error.SearchFailed?)
  {
    match FindSource(catalog, Lower(source))
    case None =>
    case Some(feeds) =>
      match FindFeed(feeds, Lower(category))
      case None =>
      case Some(url) =>
        var entries := web(url);
        var k := SliceStop(|entries|, maxArticles);
        assert forall i :: 0 <= i < k ==> entries[..k][i] == entries[i];
  }

  /** A known feed with entries whose summaries all read gives the first
      `max_articles` of them (all of them if there are fewer). */
  lemma FetchCleanFeed(catalog: seq<Source>, source: string, category: string, maxArticles: nat, web: string -> seq<Entry>)
    requires FeedUrl(catalog, source, category).Some?
    requires var entries := web(FeedUrl(catalog, source, category).value);
      entries != [] && forall e :: e in entries ==> SummaryOf(e).Some?
    ensures var r := Fetch(catalog, source, category, maxArticles, web);
      var entries := web(FeedUrl(catalog, source, category).value);
      && r.Success?
      && |r.value| == (if maxArticles < |entries| then maxArticles else |entries|)
      && forall i :: 0 <= i < |r.value| ==>
           r.value[i].title == entries[i].title.GetOr("No title") && r.value[i].source == source
  {
    var entries := web(FeedUrl(catalog, source, category).value);
    var k := SliceStop(|entries|, maxArticles);
    assert forall i :: 0 <= i < k ==> entries[..k][i] == entries[i] && entries[i] in entries;
  }

  /** A successful fetch that asks for at least one article returns at
      least one: the feed was not empty. */
  lemma FetchNonEmpty(catalog: seq<Source>, source: string, category: string, maxArticles: int, web: string -> seq<Entry>)
    requires maxArticles >= 1 && Fetch(catalog, source, category, maxArticles, web).Success?
    ensures Fetch(catalog, source, category, maxArticles, web).value != []
  {
  }

  /** `fetch_news_articles`: look the feed up, then normalise the first
      `max_articles` entries one by one. */
  method FetchNewsArticles(catalog: seq<Source>, source: string, category: string, maxArticles: int, web: string -> seq<Entry>)
    returns (r: Result<seq<Article>, FetchError>)
    ensures r == Fetch(catalog, source, category, maxArticles, web)
  {
    var sourceLower := Lower(source);
    var categoryLower := Lower(category);
    var feeds := FindSource(catalog, sourceLower);
    if feeds.None? {
      return Failure(UnknownSource(source, Names(catalog)));
    }
    var url := FindFeed(feeds.value, categoryLower);
    if url.None? {
      return Failure(UnknownCategory(category, source, CategoryNames(feeds.value)));
    }
    var entries := web(url.value);
    if entries == [] {
      return Failure(NoArticles(source, category));
    }
    var window := entries[..SliceStop(|entries|, maxArticles)];
    var articles: seq<Article> := [];
    var i := 0;
    while i < |window|
      invariant 0 <= i <= |window|
      invariant NormalizeAll(window[..i], source, category) == Some(articles)
    {
      var a := Normalize(window[i], source, category);
      if a.None? {
        NormalizeAllPrefixFails(window, i + 1, source, category);
        return Failure(FetchFailed(source));
      }
      NormalizeAllSnoc(window, i, source, category, articles, a.value);
      articles := articles + [a.value];
      i := i + 1;
    }
    assert window[..i] == window;
    return Success(articles);
  }

  /** One entry more, normalised, is one article more. */
  lemma NormalizeAllSnoc(es: seq<Entry>, i: nat, source: string, category: string, arts: seq<Article>, a: Article)
    requires i < |es|
    requires NormalizeAll(es[..i], source, category) == Some(arts)
    requires Normalize(es[i], source, category) == Some(a)
    ensures NormalizeAll(es[..i + 1], source, category) == Some(arts + [a])
  {
    assert es[..i + 1][..i] == es[..i];
  }

  /** If a prefix cannot be normalised, neither can the whole. */
  lemma NormalizeAllPrefixFails(es: seq<Entry>, k: nat, source: string, category: string)
    requires 0 < k <= |es| && Normalize(es[k - 1], source, category).None?
    ensures NormalizeAll(es, source, category).None?
  {
  }

  // ---------------------------------------------------------------- search

  /** How many articles a keyword search reads before filtering. */
  const SearchPool := 50

  /** The filter of `search_articles_by_keyword`: the lower-cased keyword
      occurs in the lower-cased title or summary. */
  predicate Matches(a: Article, keywordLower: string)
  {
    Occurs(Lower(a.title), keywordLower) || Occurs(Lower(a.summary), keywordLower)
  }

  /** `search_articles_by_keyword`: fetch 50, filter, keep the first
      `max_results`; any failure is re-raised as a search error. */
  function SearchByKeyword(catalog: seq<Source>, keyword: string, source: string, category: string, maxResults: int,
                           web: string -> seq<Entry>): (r: Result<seq<Article>, FetchError>)
    ensures Fetch(catalog, source, category, SearchPool, web).Failure? ==>
      r == Failure(SearchFailed(Fetch(catalog, source, category, SearchPool, web).error))
    ensures Fetch(catalog, source, category, SearchPool, web).Success? ==> (r.Success? &&
      var pool := Fetch(catalog, source, category, SearchPool, web).value;
      var matching := Filter(pool, a => Matches(a, Lower(keyword)));
      && IsSubsequence(r.value, pool)
      && |r.value| <= SearchPool
      && (forall a :: a in r.value ==> Matches(a, Lower(keyword)))
      && r.value <= matching
      && (maxResults >= 0 ==> |r.value| == if maxResults < |matching| then maxResults else |matching|)
      && (maxResults < 0 ==> |r.value| == if |matching| + maxResults > 0 then |matching| + maxResults else 0))
  {
    match Fetch(catalog, source, category, SearchPool, web)
    case Failure(e) => Failure(SearchFailed(e))
    case Success(pool) =>
      var kw := Lower(keyword);
      var filtered := Filter(pool, a => Matches(a, kw));
      var k := SliceStop(|filtered|, maxResults);
      PrefixIsSubsequence(filtered, k);
      SubsequenceTransitive(filtered[..k], filtered, pool);
      assert forall a :: a in filtered[..k] ==> a in filtered;
      Success(filtered[..k])
  }

  /** When fewer than `max_results` articles come back, the result is
      every matching article of the pool, repeats included, in order. */
  lemma SearchIsComplete(catalog: seq<Source>, keyword: string, source: string, category: string, maxResults: int,
                         web: string -> seq<Entry>)
    requires Fetch(catalog, source, category, SearchPool, web).Success?
    requires |SearchByKeyword(catalog, keyword, source, category, maxResults, web).value| < maxResults
    ensures SearchByKeyword(catalog, keyword, source, category, maxResults, web).value ==
      Filter(Fetch(catalog, source, category, SearchPool, web).value, a => Matches(a, Lower(keyword)))
    ensures forall a :: a in Fetch(catalog, source, category, SearchPool, web).value && Matches(a, Lower(keyword)) ==>
      a in SearchByKeyword(catalog, keyword, source, category, maxResults, web).value
  {
  }

  /** Subsequences compose. */
  lemma {:induction false} SubsequenceTransitive<T>(a: seq<T>, b: seq<T>, c: seq<T>)
    requires IsSubsequence(a, b) && IsSubsequence(b, c)
    ensures IsSubsequence(a, c)
    decreases |c|
  {
    if a != [] && c != [] {
      var c' := c[..|c| - 1];
      var z := c[|c| - 1];
      if b != [] && b[|b| - 1] == z {
        var b' := b[..|b| - 1];
        if a[|a| - 1] == z {
          SubsequenceTransitive(a[..|a| - 1], b', c');
        } else {
          SubsequenceTransitive(a, b', c');
        }
      } else {
        SubsequenceTransitive(a, b, c');
        if a[|a| - 1] == z {
          SubsequenceDropLast(a, c');
        }
      }
    }
  }

  /** One key of the dictionary `search_across_sources` returns. */
  datatype Hit = Hit(source: string, articles: seq<Article>)

  /** The keys of the dictionary, in insertion order. */
  function Keys(hits: seq<Hit>): (ks: seq<string>)
    ensures |ks| == |hits| && forall j :: 0 <= j < |hits| ==> ks[j] == hits[j].source
  {
    seq(|hits|, j requires 0 <= j < |hits| => hits[j].source)
  }

  predicate DistinctKeys(hits: seq<Hit>)
  {
    forall j, k :: 0 <= j < k < |hits| ==> hits[j].source != hits[k].source
  }

  /** `results[source] = articles` on an insertion-ordered dictionary: an
      existing key keeps its place and takes the new value, a new key goes
      last, every other entry stays as it was. */
  function Assign(hits: seq<Hit>, source: string, articles: seq<Article>): (r: seq<Hit>)
    ensures source in Keys(hits) ==> Keys(r) == Keys(hits)
    ensures source !in Keys(hits) ==> Keys(r) == Keys(hits) + [source]
    ensures forall j :: 0 <= j < |r| ==> r[j] == if r[j].source == source then Hit(source, articles) else hits[j]
    ensures DistinctKeys(hits) ==> DistinctKeys(r)
  {
    if source in Keys(hits) then
      seq(|hits|, j requires 0 <= j < |hits| => if hits[j].source == source then Hit(source, articles) else hits[j])
    else hits + [Hit(source, articles)]
  }

  /** How one source is searched in the scan. */
  type Search = string -> Result<seq<Article>, FetchError>

  /** The scan's search: the "general" category of the source. */
  function SearchFn(catalog: seq<Source>, keyword: string, maxPerSource: int, web: string -> seq<Entry>): Search
  {
    source => SearchByKeyword(catalog, keyword, source, "general", maxPerSource, web)
  }

  /** The source contributes to the scan: its search succeeds and finds something. */
  predicate Found(search: Search, source: string)
  {
    search(source).Success? && search(source).value != []
  }

  /** The dictionary after scanning `srcs` in order. */
  function Scan(search: Search, srcs: seq<string>): seq<Hit>
    decreases |srcs|
  {
    if srcs == [] then []
    else
      var acc := Scan(search, srcs[..|srcs| - 1]);
      var source := srcs[|srcs| - 1];
      if Found(search, source) then Assign(acc, source, search(source).value) else acc
  }

  /** What a scan of `srcs` may return: a key for exactly the requested
      sources whose search succeeds with a non-empty result, holding that
      result, each key once, the keys a subsequence of the request. */
  predicate ScanOutcome(search: Search, srcs: seq<string>, res: seq<Hit>)
  {
    && (forall j :: 0 <= j < |res| ==>
          res[j].source in srcs && Found(search, res[j].source) && search(res[j].source) == Success(res[j].articles))
    && (forall s :: s in srcs ==> (s in Keys(res) <==> Found(search, s)))
    && DistinctKeys(res)
    && IsSubsequence(Keys(res), srcs)
  }

  /** A source the outcome already accounts for (present exactly when it
      is found) can be requested again without changing the dictionary. */
  lemma ScanRepeat(search: Search, init: seq<string>, source: string, acc: seq<Hit>)
    requires ScanOutcome(search, init, acc)
    requires source in Keys(acc) <==> Found(search, source)
    ensures ScanOutcome(search, init + [source], acc)
  {
    var srcs := init + [source];
    forall s | s in srcs ensures s in Keys(acc) <==> Found(search, s) {
      if s != source {
        assert s in init;
      }
    }
    SubsequenceExtend(Keys(acc), init, source);
  }

  /** A found source that is not yet a key goes last. */
  lemma ScanAdd(search: Search, init: seq<string>, source: string, acc: seq<Hit>)
    requires ScanOutcome(search, init, acc)
    requires Found(search, source) && source !in Keys(acc)
    ensures ScanOutcome(search, init + [source], acc + [Hit(source, search(source).value)])
  {
    var srcs := init + [source];
    var hit := Hit(source, search(source).value);
    var res := acc + [hit];
    assert Keys(res) == Keys(acc) + [source];
    assert search(source) == Success(hit.articles);
    forall j | 0 <= j < |res|
      ensures res[j].source in srcs && Found(search, res[j].source) && search(res[j].source) == Success(res[j].articles)
    {
      if j < |acc| {
        assert res[j] == acc[j];
      }
    }
    forall s | s in srcs ensures s in Keys(res) <==> Found(search, s) {
      if s != source {
        assert s in init;
      }
    }
    forall j, k | 0 <= j < k < |res| ensures res[j].source != res[k].source {
      if k == |acc| {
        assert Keys(acc)[j] == res[j].source;
      }
    }
    SubsequenceAppendBoth(Keys(acc), init, source);
  }

  /** Assigning a key the value it already holds changes nothing. */
  lemma AssignSame(hits: seq<Hit>, source: string, articles: seq<Article>)
    requires forall j :: 0 <= j < |hits| && hits[j].source == source ==> hits[j].articles == articles
    requires source in Keys(hits)
    ensures Assign(hits, source, articles) == hits
  {
    var r := Assign(hits, source, articles);
    forall j | 0 <= j < |hits| ensures r[j] == hits[j] {
    }
  }

  /** One more source keeps the scan's outcome. */
  lemma ScanStep(search: Search, init: seq<string>, source: string, acc: seq<Hit>)
    requires ScanOutcome(search, init, acc)
    ensures ScanOutcome(search, init + [source],
                        if Found(search, source) then Assign(acc, source, search(source).value) else acc)
  {
    if !Found(search, source) {
      ScanRepeat(search, init, source, acc);
    } else if source in Keys(acc) {
      forall j | 0 <= j < |acc| && acc[j].source == source ensures acc[j].articles == search(source).value {
      }
      AssignSame(acc, source, search(source).value);
      ScanRepeat(search, init, source, acc);
    } else {
      ScanAdd(search, init, source, acc);
    }
  }

  /** The scan has that outcome. */
  lemma {:induction false} ScanProperties(search: Search, srcs: seq<string>)
    ensures ScanOutcome(search, srcs, Scan(search, srcs))
    decreases |srcs|
  {
    if srcs != [] {
      var init := srcs[..|srcs| - 1];
      assert srcs == init + [srcs[|srcs| - 1]];
      ScanProperties(search, init);
      ScanStep(search, init, srcs[|srcs| - 1], Scan(search, init));
    }
  }

  /** The scan of one source more. */
  lemma ScanSnoc(search: Search, srcs: seq<string>, i: nat)
    requires i < |srcs|
    ensures var acc := Scan(search, srcs[..i]);
      Scan(search, srcs[..i + 1]) ==
        if Found(search, srcs[i]) then Assign(acc, srcs[i], search(srcs[i]).value) else acc
  {
    assert srcs[..i + 1][..i] == srcs[..i];
  }

  /** `search_across_sources`: search the "general" category of each source
      (every catalog source by default), skip those whose search raises, and
      keep the non-empty results under the source's name. */
  method SearchAcrossSources(catalog: seq<Source>, keyword: string, sources: Option<seq<string>>, maxPerSource: int,
                             web: string -> seq<Entry>) returns (results: seq<Hit>)
    ensures results == Scan(SearchFn(catalog, keyword, maxPerSource, web), sources.GetOr(Names(catalog)))
  {
    var search := SearchFn(catalog, keyword, maxPerSource, web);
    var srcs := sources.GetOr(Names(catalog));
    results := [];
    var i := 0;
    while i < |srcs|
      invariant 0 <= i <= |srcs|
      invariant results == Scan(search, srcs[..i])
    {
      var source := srcs[i];
      ScanSnoc(search, srcs, i);
      var articles := SearchByKeyword(catalog, keyword, source, "general", maxPerSource, web);
      assert articles == search(source);
      if articles.Success? && articles.value != [] {
        results := Assign(results, source, articles.value);
      }
      i := i + 1;
    }
    assert srcs[..i] == srcs;
  }
}
