/** The selection and accounting rules of telegram_bot.py: callback-data
    strings, keyboards of two buttons a row, the per-tier article count, the
    capped search delivery and the summary truncation.

    Each handler is a method over the subscription manager, proved equal to a
    pure outcome (its reply and the new store); the properties are lemmas
    about the outcome. Chat text, emoji, Markdown and the Telegram transport
    are left out: a reply keeps only what the handler decides.

    The bot's fetcher is given by its table `catalog` (the bot itself uses
    `NewsSourceFetcher.RssFeeds`), so the handlers hold for any table and
    the facts about the real one are separate lemmas. */
module TelegramBot {
  import opened Wrappers
  import opened Seqs
  import opened Text
  import opened Subscription
  import F = NewsSourceFetcher

  // ------------------------------------------------------------ callbacks

  /** What a button press asks for, as `button_callback` reads its data. */
  datatype Callback =
    | ShowPremium
    | ActivatePremium
    | PickSource(source: string)
    | PickCategory(source: string, category: string)
    | Unhandled(data: string)

  const SourcePrefix := "source_"
  const CategoryPrefix := "category_"

  /** `button_callback`'s dispatch: exact matches first, then the prefixes;
      a source is the data with every "source_" removed; a category callback
      is split on "_" after removing every "category_". */
  function ParseCallback(data: string): Callback
  {
    if data == "show_premium" then ShowPremium
    else if data == "activate_premium" then ActivatePremium
    else if SourcePrefix <= data then PickSource(RemoveAll(data, SourcePrefix))
    else if CategoryPrefix <= data then
      var parts := Split(RemoveAll(data, CategoryPrefix), '_');
      PickCategory(parts[0], Join(parts[1..], '_'))
    else Unhandled(data)
  }

  /** The data of a source button. */
  function SourceData(source: string): string
  {
    SourcePrefix + source
  }

  /** The data of a category button. */
  function CategoryData(source: string, category: string): string
  {
    CategoryPrefix + source + "_" + category
  }

  /** Data that starts with "source_" is read as a source callback. */
  lemma ParseSourceData(rest: string)
    ensures ParseCallback(SourcePrefix + rest) == PickSource(RemoveAll(rest, SourcePrefix))
  {
    var data := SourcePrefix + rest;
    assert data[1] == 'o';
    assert data[..|SourcePrefix|] == SourcePrefix;
    RemoveAllLeading(SourcePrefix, rest);
  }

  /** A source button parses back to its source when the name does not
      itself contain "source_". */
  lemma SourceCallbackRoundTrip(source: string)
    requires !Occurs(source, SourcePrefix)
    ensures ParseCallback(SourceData(source)) == PickSource(source)
  {
    ParseSourceData(source);
    RemoveAllAbsent(source, SourcePrefix);
  }

  /** Every "source_" is removed, not only the leading one: a name without
      an "s" followed by "source_" parses back to the bare name. */
  lemma SourceCallbackRemovesEveryPrefix(name: string)
    requires 's' !in name
    ensures ParseCallback(SourceData(name + SourcePrefix)) == PickSource(name)
  {
    ParseSourceData(name + SourcePrefix);
    TrailingPrefixRemoved(name);
  }

  lemma {:induction false} TrailingPrefixRemoved(name: string)
    requires 's' !in name
    ensures RemoveAll(name + SourcePrefix, SourcePrefix) == name
    decreases |name|
  {
    if name == [] {
      assert name + SourcePrefix == SourcePrefix + "";
      RemoveAllLeading(SourcePrefix, "");
    } else {
      assert name + SourcePrefix == [name[0]] + (name[1..] + SourcePrefix);
      assert name[0] in name;
      RemoveAllKeeps(name[0], name[1..] + SourcePrefix, SourcePrefix);
      assert forall c :: c in name[1..] ==> c in name;
      TrailingPrefixRemoved(name[1..]);
    }
  }

  /** `s` ends with `suffix`. */
  predicate EndsWith(s: string, suffix: string)
  {
    |suffix| <= |s| && s[|s| - |suffix|..] == suffix
  }

  /** "category_" cannot occur across the separator of `source + "_" +
      category` when the source has no "_" and does not end in "category". */
  lemma {:induction false} NoCategoryPrefixIn(source: string, category: string)
    requires '_' !in source && !EndsWith(source, "category")
    requires !Occurs(category, CategoryPrefix)
    ensures !Occurs(source + "_" + category, CategoryPrefix)
    decreases |source|
  {
    var rest := source + "_" + category;
    var pat := CategoryPrefix;
    if |source| > 8 {
      assert rest[8] == source[8] != pat[8];
    } else if |source| == 8 {
      assert rest[..8] == source[|source| - 8..] != pat[..8];
    } else {
      assert rest[|source|] == '_' != pat[|source|];
    }
    if source == [] {
      assert rest[1..] == category;
    } else {
      var tail := source[1..];
      assert rest[1..] == tail + "_" + category;
      assert forall c :: c in tail ==> c in source;
      assert !EndsWith(tail, "category") by {
        if |tail| >= 8 {
          assert tail[|tail| - 8..] == source[|source| - 8..];
        }
      }
      NoCategoryPrefixIn(tail, category);
    }
  }

  /** Data that starts with "category_" is read as a category callback. */
  lemma ParseCategoryData(rest: string)
    ensures var parts := Split(RemoveAll(rest, CategoryPrefix), '_');
      ParseCallback(CategoryPrefix + rest) == PickCategory(parts[0], Join(parts[1..], '_'))
  {
    var data := CategoryPrefix + rest;
    assert data[0] == 'c';
    assert data[..|CategoryPrefix|] == CategoryPrefix;
    assert "show_premium"[0] == 's' && "activate_premium"[0] == 'a';
    RemoveAllLeading(CategoryPrefix, rest);
  }

  /** A category button parses back to its source and category: the source
      must not contain "_" nor end in "category"; the category may contain
      "_" but not "category_". */
  lemma CategoryCallbackRoundTrip(source: string, category: string)
    requires '_' !in source && !EndsWith(source, "category")
    requires !Occurs(category, CategoryPrefix)
    ensures ParseCallback(CategoryData(source, category)) == PickCategory(source, category)
  {
    var rest := source + "_" + category;
    assert CategoryData(source, category) == CategoryPrefix + rest;
    ParseCategoryData(rest);
    NoCategoryPrefixIn(source, category);
    RemoveAllAbsent(rest, CategoryPrefix);
    SplitAtFirst(source, '_', category);
    var parts := Split(rest, '_');
    assert parts == [source] + Split(category, '_');
    assert parts[1..] == Split(category, '_');
    JoinSplit(category, '_');
  }

  /** A name without "_" contains neither prefix. */
  lemma NoUnderscoreNoPrefix(s: string)
    requires '_' !in s
    ensures !Occurs(s, CategoryPrefix) && !Occurs(s, SourcePrefix)
  {
    MissingCharNoOccurrence(s, CategoryPrefix, 8);
    MissingCharNoOccurrence(s, SourcePrefix, 6);
  }

  /** The buttons the bot builds for the sources of its catalog parse back
      to what they were built from, for any category free of "_". */
  lemma CatalogCallbacksRoundTrip(source: string, category: string)
    requires source in F.Names(F.RssFeeds) && '_' !in category
    ensures ParseCallback(SourceData(source)) == PickSource(source)
    ensures ParseCallback(CategoryData(source, category)) == PickCategory(source, category)
  {
    F.RssFeedsNames();
    F.CatalogNamesPlain();
    assert source != [] && source[|source| - 1] != 'y';
    assert !EndsWith(source, "category") by {
      assert "category"[7] == 'y';
    }
    NoUnderscoreNoPrefix(source);
    NoUnderscoreNoPrefix(category);
    SourceCallbackRoundTrip(source);
    CategoryCallbackRoundTrip(source, category);
  }

  // ------------------------------------------------------- access checks

  /** `available_cats == "all" or category in available_cats`. */
  predicate CategoryAllowed(cats: Allow, category: string)
  {
    cats.All? || category in cats.names
  }

  /** The category list handed out agrees with the "category" feature check. */
  lemma CategoryAllowedAgreesWithCheck(t: Tier, category: string)
    ensures CategoryAllowed(AvailableCategories(t), category) <==>
      Decide(t, "category", Some(category), 0) == Flag(true)
  {
  }

  // ------------------------------------------------------------ keyboards

  /** An inline button: its callback data, and whether it shows a lock. */
  datatype Button = Button(data: string, locked: bool)

  const UpgradeButton := Button("show_premium", false)
  const BackButton := Button("back_sources", false)

  /** The rows for one item more: it joins an open row of one, or opens a
      new row. */
  function AddToRows<T>(rows: seq<seq<T>>, x: T): seq<seq<T>>
  {
    if rows != [] && |rows[|rows| - 1]| == 1 then rows[..|rows| - 1] + [rows[|rows| - 1] + [x]]
    else rows + [[x]]
  }

  /** Items laid out two to a row, as the keyboard loops do: each item joins
      the open row, and a row is closed when it holds two; a last open row
      of one is closed at the end. */
  function PairUp<T>(items: seq<T>): seq<seq<T>>
    decreases |items|
  {
    if items == [] then []
    else
      AddToRows(PairUp(items[..|items| - 1]), items[|items| - 1])
  }

  /** One item more joins an open row of one, or opens a new row. */
  lemma PairUpSnoc<T>(items: seq<T>, x: T)
    ensures PairUp(items + [x]) == AddToRows(PairUp(items), x)
  {
    assert (items + [x])[..|items|] == items;
  }

  /** Two items make one row. */
  lemma PairUpTwo<T>(x: T, y: T)
    ensures PairUp([x, y]) == [[x, y]]
  {
    PairUpSnoc([], x);
    assert [x, y] == [x] + [y];
    PairUpSnoc([x], y);
  }

  /** Read in order, the rows give back the items. */
  lemma {:induction false} PairUpFlatten<T>(items: seq<T>)
    ensures Flatten(PairUp(items)) == items
    decreases |items|
  {
    if items != [] {
      var init := items[..|items| - 1];
      var x := items[|items| - 1];
      assert items == init + [x];
      PairUpFlatten(init);
      var rows := PairUp(init);
      if rows != [] && |rows[|rows| - 1]| == 1 {
        var front := rows[..|rows| - 1];
        var last := rows[|rows| - 1];
        assert rows == front + [last];
        FlattenAppend(front, last);
        FlattenAppend(front, last + [x]);
      } else {
        FlattenAppend(rows, [x]);
      }
    }
  }

  /** Rows laid out for `n` items: half as many rows as items, rounded up,
      two items a row but the last, which holds one exactly when `n` is odd. */
  ghost predicate PairShaped<T>(rows: seq<seq<T>>, n: nat)
  {
    && |rows| == (n + 1) / 2
    && (forall j :: 0 <= j < |rows| - 1 ==> |rows[j]| == 2)
    && (rows != [] ==> |rows[|rows| - 1]| == (if n % 2 == 1 then 1 else 2))
  }

  /** One item more keeps the layout. */
  lemma PairShapedSnoc<T>(rows: seq<seq<T>>, n: nat, x: T)
    requires PairShaped(rows, n)
    ensures PairShaped(AddToRows(rows, x), n + 1)
  {
    var k := |rows|;
    var rows' := AddToRows(rows, x);
    if rows != [] && |rows[k - 1]| == 1 {
      assert n % 2 == 1;
      assert forall j :: 0 <= j < k - 1 ==> rows'[j] == rows[j];
    } else {
      if rows == [] {
        assert n == 0;
      } else {
        assert n % 2 == 0;
      }
      assert forall j :: 0 <= j < k ==> rows'[j] == rows[j];
    }
  }

  /** Every row holds two items but the last, which holds one exactly when
      the number of items is odd; half as many rows as items, rounded up. */
  lemma {:induction false} PairUpRows<T>(items: seq<T>)
    ensures PairShaped(PairUp(items), |items|)
    decreases |items|
  {
    if items != [] {
      var init := items[..|items| - 1];
      var x := items[|items| - 1];
      assert items == init + [x];
      PairUpRows(init);
      PairUpSnoc(init, x);
      PairShapedSnoc(PairUp(init), |init|, x);
    }
  }

  /** The keyboard loop's state after `done`: closed rows of two, and an
      open row of at most one. */
  ghost predicate Laid<T>(done: seq<T>, rows: seq<seq<T>>, row: seq<T>)
  {
    && |row| <= 1
    && PairUp(done) == rows + (if row == [] then [] else [row])
    && (rows != [] ==> |rows[|rows| - 1]| == 2)
  }

  /** One pass of the keyboard loop: the item joins the open row, which is
      closed once it holds two. */
  lemma ChunkStep<T>(done: seq<T>, x: T, rows: seq<seq<T>>, row: seq<T>)
    requires Laid(done, rows, row)
    ensures row == [] ==> Laid(done + [x], rows, [x])
    ensures row != [] ==> Laid(done + [x], rows + [row + [x]], [])
  {
    PairUpSnoc(done, x);
    var before := PairUp(done);
    if row != [] {
      assert before[..|before| - 1] == rows;
    }
  }

  /** The loop of `news_command` and `show_categories` that fills `row` and
      `keyboard`. */
  method ChunkPairs<T>(items: seq<T>) returns (rows: seq<seq<T>>)
    ensures rows == PairUp(items)
  {
    rows := [];
    var row: seq<T> := [];
    var i := 0;
    while i < |items|
      invariant 0 <= i <= |items|
      invariant Laid(items[..i], rows, row)
    {
      var x := items[i];
      assert items[..i + 1] == items[..i] + [x];
      ChunkStep(items[..i], x, rows, row);
      if row == [] {
        row := [x];
      } else {
        rows := rows + [row + [x]];
        row := [];
      }
      i := i + 1;
    }
    assert items[..i] == items;
    if row != [] {
      rows := rows + [row];
    }
  }

  /** The source buttons, in the given order. */
  function SourceButtons(sources: seq<string>): (bs: seq<Button>)
    ensures |bs| == |sources|
    ensures forall k :: 0 <= k < |bs| ==> bs[k] == Button(SourceData(sources[k]), false)
  {
    seq(|sources|, k requires 0 <= k < |sources| => Button(SourceData(sources[k]), false))
  }

  /** The keyboard of `news_command`: the tier's sources sorted, two a row,
      and for a free user an "Unlock" row. */
  function SourceKeyboard(t: Tier): seq<seq<Button>>
  {
    PairUp(SourceButtons(SortStrings(AvailableSources(t)))) + (if t == Free then [[UpgradeButton]] else [])
  }

  /** A free user's sources, sorted: bbc before guardian. */
  lemma FreeSourcesSorted()
    ensures SortStrings(AvailableSources(Free)) == ["bbc", "guardian"]
  {
    assert LexLe("bbc", "guardian") by {
      assert "bbc"[0] == 'b' && "guardian"[0] == 'g';
    }
    SortTwo("bbc", "guardian");
  }

  /** A free user sees bbc and guardian on one row, then the Unlock row. */
  lemma FreeSourceKeyboard()
    ensures SourceKeyboard(Free) == [[Button("source_bbc", false), Button("source_guardian", false)], [UpgradeButton]]
  {
    FreeSourcesSorted();
    var bs := SourceButtons(["bbc", "guardian"]);
    var b := Button("source_bbc", false);
    var g := Button("source_guardian", false);
    assert SourceData("bbc") == "source_bbc" && SourceData("guardian") == "source_guardian";
    assert bs == [b, g];
    PairUpTwo(b, g);
  }

  /** A keyboard with an optional last row ends in that row exactly when
      the row is added. */
  lemma ExtraRowIff<T>(body: seq<seq<T>>, row: seq<T>, added: bool)
    ensures body + (if added then [row] else []) == body + [row] <==> added
  {
    if !added {
      assert |body + []| != |body + [row]|;
    }
  }

  /** The source keyboard lists each source of the tier once, in sorted
      order, two a row, the Unlock row last for a free user only. */
  lemma SourceKeyboardShape(t: Tier)
    ensures var body := PairUp(SourceButtons(SortStrings(AvailableSources(t))));
      && Flatten(body) == SourceButtons(SortStrings(AvailableSources(t)))
      && Sorted(SortStrings(AvailableSources(t)))
      && multiset(SortStrings(AvailableSources(t))) == multiset(AvailableSources(t))
      && (t == Free <==> SourceKeyboard(t) == body + [[UpgradeButton]])
  {
    var bs := SourceButtons(SortStrings(AvailableSources(t)));
    PairUpFlatten(bs);
    ExtraRowIff(PairUp(bs), [UpgradeButton], t == Free);
  }

  /** `get_available_sources().get(source, {})`: the catalog categories of a
      source, none for an unknown name. */
  function CatalogCategories(catalog: seq<F.Source>, source: string): seq<string>
  {
    match F.FindSource(catalog, source)
    case Some(feeds) => F.CategoryNames(feeds)
    case None => []
  }

  /** The lookup is the listing's `get(source, {})` for a catalog whose
      names are distinct, as the real one's are. */
  lemma CatalogCategoriesAgreeWithListing(catalog: seq<F.Source>, source: string)
    requires F.DistinctNames(catalog)
    ensures var listing := F.AvailableSources(catalog);
      CatalogCategories(catalog, source) == if source in listing then listing[source] else []
  {
    F.AvailableSourcesAgreeWithLookup(catalog, source);
  }

  /** The category buttons, locked where the tier does not allow them. */
  function CategoryButtons(source: string, categories: seq<string>, cats: Allow): (bs: seq<Button>)
    ensures |bs| == |categories|
    ensures forall k :: 0 <= k < |bs| ==>
      bs[k] == Button(CategoryData(source, categories[k]), !CategoryAllowed(cats, categories[k]))
  {
    seq(|categories|, k requires 0 <= k < |categories| =>
      Button(CategoryData(source, categories[k]), !CategoryAllowed(cats, categories[k])))
  }

  /** The keyboard of `show_categories`: the source's categories sorted, two
      a row, a lock on those the tier does not allow, and a Back row. */
  function CategoryKeyboard(catalog: seq<F.Source>, source: string, cats: Allow): seq<seq<Button>>
  {
    PairUp(CategoryButtons(source, SortStrings(CatalogCategories(catalog, source)), cats)) + [[BackButton]]
  }

  /** The lock shown on a category button is exactly the refusal the
      callback gives when it is pressed. */
  lemma CategoryLockMatchesRefusal(catalog: seq<F.Source>, source: string, t: Tier, k: nat)
    requires k < |CatalogCategories(catalog, source)|
    ensures var cs := SortStrings(CatalogCategories(catalog, source));
      var b := CategoryButtons(source, cs, AvailableCategories(t))[k];
      b.locked <==> Decide(t, "category", Some(cs[k]), 0) == Flag(false)
  {
  }

  /** An unknown source gets only the Back row. */
  lemma UnknownSourceKeyboard(catalog: seq<F.Source>, source: string, cats: Allow)
    requires source !in F.Names(catalog)
    ensures CategoryKeyboard(catalog, source, cats) == [[BackButton]]
  {
    assert CatalogCategories(catalog, source) == [];
  }

  // ------------------------------------------------------- delivering news

  /** What a handler answers, and the store it leaves. */
  datatype Outcome<R> = Outcome(reply: R, users: Users)

  /** `3 if tier == "free" else 5`. */
  function ArticleCount(t: Tier): (n: nat)
    ensures n == 3 <==> t == Free
    ensures t == Premium ==> n == 5
  {
    if t == Free then 3 else 5
  }

  /** `summary[:limit]`, with "..." when something was cut. */
  function Truncated(s: string, limit: nat): (r: string)
    ensures |s| <= limit ==> r == s
    ensures |s| > limit ==> |r| == limit + 3 && r[..limit] == s[..limit] && r[limit..] == "..."
  {
    if |s| > limit then s[..limit] + "..." else s
  }

  /** One article message of `fetch_and_send_news`: its place, the title,
      the date, the shortened summary when there is one, and the link. */
  datatype ArticleMessage = ArticleMessage(index: nat, total: nat, title: string, published: string,
                                           summary: Option<string>, link: string)

  const ArticleSummaryLimit := 500
  const SearchSummaryLimit := 400

  /** The summary block of a message: none for an empty summary. */
  function ShownSummary(summary: string, limit: nat): Option<string>
  {
    if summary != "" then Some(Truncated(summary, limit)) else None
  }

  function ArticleMessageOf(i: nat, n: nat, a: F.Article): ArticleMessage
  {
    ArticleMessage(i, n, a.title, a.published, ShownSummary(a.summary, ArticleSummaryLimit), a.link)
  }

  /** The messages for a list of articles, numbered from 1. */
  function ArticleMessages(arts: seq<F.Article>): (ms: seq<ArticleMessage>)
    ensures |ms| == |arts|
    ensures forall k :: 0 <= k < |ms| ==> ms[k] == ArticleMessageOf(k + 1, |arts|, arts[k])
  {
    seq(|arts|, k requires 0 <= k < |arts| => ArticleMessageOf(k + 1, |arts|, arts[k]))
  }

  datatype NewsReply = FetchFailed(error: F.FetchError) | Delivered(messages: seq<ArticleMessage>)

  /** `fetch_and_send_news`: read the tier, fetch 3 or 5 articles, count one
      usage per article, and send them. */
  function FetchOutcome(catalog: seq<F.Source>, m: Users, u: string, source: string, category: string,
                        now: int, today: int, web: string -> seq<F.Entry>): Outcome<NewsReply>
  {
    var m1 := CheckTier(m, u, now);
    match F.Fetch(catalog, source, category, ArticleCount(TierOf(m, u, now)), web)
    case Failure(e) => Outcome(FetchFailed(e), m1)
    case Success(arts) => Outcome(Delivered(ArticleMessages(arts)), IncrementN(m1, u, today, |arts|))
  }

  /** A delivery sends between one and 3 (free) or 5 (premium) articles and
      counts each once; a failed fetch counts nothing. */
  lemma FetchAccounting(catalog: seq<F.Source>, m: Users, u: string, source: string, category: string,
                        now: int, today: int, web: string -> seq<F.Entry>)
    ensures var o := FetchOutcome(catalog, m, u, source, category, now, today, web);
      && (o.reply.Delivered? ==>
            && 1 <= |o.reply.messages| <= ArticleCount(TierOf(m, u, now))
            && o.users[u].dailyCount == Some(CountToday(m, u, today) + |o.reply.messages|))
      && (o.reply.FetchFailed? ==> CountToday(o.users, u, today) == CountToday(m, u, today))
      && TierOf(o.users, u, now) == TierOf(m, u, now)
  {
    var t := TierOf(m, u, now);
    var m1 := CheckTier(m, u, now);
    CountTodayStable(m, u, now, today);
    var r := F.Fetch(catalog, source, category, ArticleCount(t), web);
    FetchOutcomeShape(catalog, m, u, source, category, now, today, web);
    if r.Success? {
      F.FetchNonEmpty(catalog, source, category, ArticleCount(t), web);
      UsageAfterDelivery(m1, u, today, |r.value|, now);
    }
  }

  /** The two ways `fetch_and_send_news` ends, by what the fetch returned. */
  lemma FetchOutcomeShape(catalog: seq<F.Source>, m: Users, u: string, source: string, category: string,
                          now: int, today: int, web: string -> seq<F.Entry>)
    ensures var r := F.Fetch(catalog, source, category, ArticleCount(TierOf(m, u, now)), web);
      var o := FetchOutcome(catalog, m, u, source, category, now, today, web);
      && (r.Failure? ==> o == Outcome(FetchFailed(r.error), CheckTier(m, u, now)))
      && (r.Success? ==> o == Outcome(Delivered(ArticleMessages(r.value)),
                                      IncrementN(CheckTier(m, u, now), u, today, |r.value|)))
  {
  }

  /** A shown summary is the original when it fits, and otherwise its first
      `limit` characters followed by "...". */
  lemma ShownSummaryFits(summary: string, limit: nat)
    ensures ShownSummary(summary, limit).Some? <==> summary != ""
    ensures ShownSummary(summary, limit).Some? ==>
      var shown := ShownSummary(summary, limit).value;
      && |shown| <= limit + 3
      && (|summary| <= limit ==> shown == summary)
      && Take(summary, limit) <= shown
  {
  }

  /** The sending loop of `fetch_and_send_news`: one usage and one message
      per article, numbered from 1. */
  method SendArticles(m: SubscriptionManager, u: string, articles: seq<F.Article>, today: int)
    returns (messages: seq<ArticleMessage>)
    modifies m
    ensures messages == ArticleMessages(articles)
    ensures m.subscriptions == IncrementN(old(m.subscriptions), u, today, |articles|)
  {
    ghost var m1 := m.subscriptions;
    IncrementNNext(m1, u, today, 0);
    messages := [];
    var i := 0;
    while i < |articles|
      invariant 0 <= i <= |articles|
      invariant m.subscriptions == IncrementN(m1, u, today, i)
      invariant |messages| == i
      invariant forall k :: 0 <= k < i ==> messages[k] == ArticleMessageOf(k + 1, |articles|, articles[k])
    {
      m.IncrementUsage(u, today);
      IncrementNNext(m1, u, today, i);
      messages := messages + [ArticleMessageOf(i + 1, |articles|, articles[i])];
      i := i + 1;
    }
  }

  method FetchAndSendNews(catalog: seq<F.Source>, m: SubscriptionManager, u: string, source: string,
                          category: string, now: int, today: int, web: string -> seq<F.Entry>)
    returns (r: NewsReply)
    modifies m
    ensures Outcome(r, m.subscriptions) == FetchOutcome(catalog, old(m.subscriptions), u, source, category, now, today, web)
  {
    ghost var m0 := m.subscriptions;
    var tier := m.GetUserTier(u, now);
    ghost var m1 := m.subscriptions;
    var maxArticles := ArticleCount(tier);
    var fetched := F.FetchNewsArticles(catalog, source, category, maxArticles, web);
    ghost var o := FetchOutcome(catalog, m0, u, source, category, now, today, web);
    if fetched.Failure? {
      assert o == Outcome(FetchFailed(fetched.error), m1);
      return FetchFailed(fetched.error);
    }
    var articles := fetched.value;
    assert o == Outcome(Delivered(ArticleMessages(articles)), IncrementN(m1, u, today, |articles|));
    var messages := SendArticles(m, u, articles, today);
    return Delivered(messages);
  }

  method ShowCategories(catalog: seq<F.Source>, m: SubscriptionManager, u: string, source: string, now: int)
    returns (rows: seq<seq<Button>>)
    modifies m
    ensures rows == CategoryKeyboard(catalog, source, AvailableCategories(TierOf(old(m.subscriptions), u, now)))
    ensures m.subscriptions == CheckTier(old(m.subscriptions), u, now)
  {
    var categories := CatalogCategories(catalog, source);
    var cats := m.GetAvailableCategories(u, now);
    var sorted := SortStrings(categories);
    var buttons: seq<Button> := [];
    var i := 0;
    while i < |sorted|
      invariant 0 <= i <= |sorted|
      invariant buttons == CategoryButtons(source, sorted, cats)[..i]
    {
      buttons := buttons + [Button(CategoryData(source, sorted[i]), !CategoryAllowed(cats, sorted[i]))];
      i := i + 1;
    }
    assert buttons == CategoryButtons(source, sorted, cats);
    rows := ChunkPairs(buttons);
    rows := rows + [[BackButton]];
  }

  // -------------------------------------------------------- button presses

  datatype CallbackReply =
    | PremiumInfo
    | ActivationInfo
    | SourceLocked(source: string)
    | Categories(rows: seq<seq<Button>>)
    | CategoryLocked(category: string)
    | News(news: NewsReply)
    | NoReply

  /** `button_callback`. */
  function CallbackOutcome(catalog: seq<F.Source>, m: Users, u: string, data: string, now: int, today: int,
                           web: string -> seq<F.Entry>): Outcome<CallbackReply>
  {
    var t := TierOf(m, u, now);
    var m1 := CheckTier(m, u, now);
    match ParseCallback(data)
    case ShowPremium => Outcome(PremiumInfo, m)
    case ActivatePremium => Outcome(ActivationInfo, m)
    case PickSource(source) =>
      if FeatureAnswer(m, u, "source", Some(source), now, today) != Flag(true) then Outcome(SourceLocked(source), m1)
      else Outcome(Categories(CategoryKeyboard(catalog, source, AvailableCategories(t))), CheckTier(m1, u, now))
    case PickCategory(source, category) =>
      if !CategoryAllowed(AvailableCategories(t), category) then Outcome(CategoryLocked(category), m1)
      else
        var o := FetchOutcome(catalog, m1, u, source, category, now, today, web);
        Outcome(News(o.reply), o.users)
    case Unhandled(_) => Outcome(NoReply, m)
  }

  /** Pressing a source button is refused exactly when the user is free and
      the source is neither bbc nor guardian; otherwise it shows that
      source's categories. */
  lemma SourcePressGate(catalog: seq<F.Source>, m: Users, u: string, source: string, now: int, today: int,
                        web: string -> seq<F.Entry>)
    requires !Occurs(source, SourcePrefix)
    ensures var r := CallbackOutcome(catalog, m, u, SourceData(source), now, today, web).reply;
      && (r.SourceLocked? <==> TierOf(m, u, now) == Free && source != "bbc" && source != "guardian")
      && (!r.SourceLocked? ==> r == Categories(CategoryKeyboard(catalog, source, AvailableCategories(TierOf(m, u, now)))))
  {
    SourceCallbackRoundTrip(source);
    SourceAnswer(m, u, source, now, today);
  }

  /** The premium list of sources and the catalog agree, so a premium user
      is never refused a source the bot can fetch. */
  lemma PremiumSourcesAreTheCatalog()
    ensures forall s :: s in F.Names(F.RssFeeds) <==> s in PremiumSources
  {
    F.RssFeedsNames();
  }

  /** Pressing a category button is refused exactly when the tier does not
      allow the category; the source is not checked again and neither is the
      daily limit, so an allowed press always goes on to fetch. */
  lemma CategoryPressGate(catalog: seq<F.Source>, m: Users, u: string, source: string, category: string,
                          now: int, today: int, web: string -> seq<F.Entry>)
    requires '_' !in source && !EndsWith(source, "category") && !Occurs(category, CategoryPrefix)
    ensures var r := CallbackOutcome(catalog, m, u, CategoryData(source, category), now, today, web).reply;
      && (r.CategoryLocked? <==> TierOf(m, u, now) == Free && category != "general" && category != "world")
      && (!r.CategoryLocked? ==> r.News?)
  {
    CategoryCallbackRoundTrip(source, category);
  }

  method ButtonCallback(catalog: seq<F.Source>, m: SubscriptionManager, u: string, data: string, now: int,
                        today: int, web: string -> seq<F.Entry>) returns (r: CallbackReply)
    modifies m
    ensures Outcome(r, m.subscriptions) == CallbackOutcome(catalog, old(m.subscriptions), u, data, now, today, web)
  {
    var c := ParseCallback(data);
    match c
    case ShowPremium =>
      r := PremiumInfo;
    case ActivatePremium =>
      r := ActivationInfo;
    case PickSource(source) =>
      var allowed := m.CanAccessFeature(u, "source", Some(source), now, today);
      if allowed != Flag(true) {
        r := SourceLocked(source);
      } else {
        var rows := ShowCategories(catalog, m, u, source, now);
        r := Categories(rows);
      }
    case PickCategory(source, category) =>
      var cats := m.GetAvailableCategories(u, now);
      if !CategoryAllowed(cats, category) {
        r := CategoryLocked(category);
      } else {
        var news := FetchAndSendNews(catalog, m, u, source, category, now, today, web);
        r := News(news);
      }
    case Unhandled(_) =>
      r := NoReply;
  }

  // ------------------------------------------------------------- /news

  datatype NewsCommandReply = DailyLimitReached(dailyArticles: int) | SourcePicker(rows: seq<seq<Button>>)

  /** `news_command`: the daily-limit check, then the source keyboard. */
  function NewsCommandOutcome(m: Users, u: string, now: int, today: int): Outcome<NewsCommandReply>
  {
    var t := TierOf(m, u, now);
    var m1 := FeatureState(m, u, "daily_limit", now, today);
    if FeatureAnswer(m, u, "daily_limit", None, now, today) != Flag(true) then
      Outcome(DailyLimitReached(Limits(t).dailyArticles), LimitsState(m1, u, now, today))
    else Outcome(SourcePicker(SourceKeyboard(t)), CheckTier(CheckTier(m1, u, now), u, now))
  }

  /** `/news` stops at the daily limit, before listing anything, and counts
      nothing either way. */
  lemma NewsCommandGate(m: Users, u: string, now: int, today: int)
    ensures var o := NewsCommandOutcome(m, u, now, today);
      && (o.reply.DailyLimitReached? <==> CountToday(m, u, today) >= Limits(TierOf(m, u, now)).dailyArticles)
      && CountToday(o.users, u, today) == CountToday(m, u, today)
      && TierOf(o.users, u, now) == TierOf(m, u, now)
  {
    DailyLimitUsesTodaysCount(m, u, now, today);
    var m0 := CheckTier(m, u, now);
    var m1 := Stats(m0, u, today);
    CountTodayStable(m, u, now, today);
    CountTodayStable(m0, u, now, today);
    CountTodayStable(m1, u, now, today);
    CountTodayStable(CheckTier(m1, u, now), u, now, today);
    StatsKeepsTier(m0, u, today, u, now);
    StatsKeepsTier(CheckTier(m1, u, now), u, today, u, now);
  }

  method NewsCommand(m: SubscriptionManager, u: string, now: int, today: int) returns (r: NewsCommandReply)
    modifies m
    ensures Outcome(r, m.subscriptions) == NewsCommandOutcome(old(m.subscriptions), u, now, today)
  {
    ghost var m0 := m.subscriptions;
    ghost var t := TierOf(m0, u, now);
    ghost var o := NewsCommandOutcome(m0, u, now, today);
    var underLimit := m.CanAccessFeature(u, "daily_limit", None, now, today);
    ghost var m1 := m.subscriptions;
    StatsKeepsTier(CheckTier(m0, u, now), u, today, u, now);
    assert TierOf(m1, u, now) == t;
    if underLimit != Flag(true) {
      var limits := m.GetLimits(u, now, today);
      assert o == Outcome(DailyLimitReached(Limits(t).dailyArticles), LimitsState(m1, u, now, today));
      return DailyLimitReached(limits.limits.dailyArticles);
    }
    assert o == Outcome(SourcePicker(SourceKeyboard(t)), CheckTier(CheckTier(m1, u, now), u, now));
    var rows := ShowSourcePicker(m, u, now);
    return SourcePicker(rows);
  }

  /** The keyboard half of `news_command`: the tier's sources, two a row,
      and the Unlock row for a free user. */
  method ShowSourcePicker(m: SubscriptionManager, u: string, now: int) returns (rows: seq<seq<Button>>)
    modifies m
    ensures rows == SourceKeyboard(TierOf(old(m.subscriptions), u, now))
    ensures m.subscriptions == CheckTier(CheckTier(old(m.subscriptions), u, now), u, now)
  {
    ghost var t := TierOf(m.subscriptions, u, now);
    var sources := m.GetAvailableSources(u, now);
    rows := SourcePickerRows(sources);
    var tier := m.GetUserTier(u, now);
    assert tier == t;
    SourceKeyboardOf(t, sources);
    if tier == Free {
      rows := rows + [[UpgradeButton]];
    }
  }

  /** The source keyboard, from the tier's list of sources. */
  lemma SourceKeyboardOf(t: Tier, sources: seq<string>)
    requires sources == AvailableSources(t)
    ensures t == Free ==> SourceKeyboard(t) == PairUp(SourceButtons(SortStrings(sources))) + [[UpgradeButton]]
    ensures t != Free ==> SourceKeyboard(t) == PairUp(SourceButtons(SortStrings(sources)))
  {
  }

  /** The loop of `news_command` over the sorted sources: a button per
      source, two a row. */
  method SourcePickerRows(sources: seq<string>) returns (rows: seq<seq<Button>>)
    ensures rows == PairUp(SourceButtons(SortStrings(sources)))
  {
    var buttons := SourceButtons(SortStrings(sources));
    rows := ChunkPairs(buttons);
  }

  // ------------------------------------------------------------ /search

  /** One search result message: the source, the title, the shortened
      summary when there is one, and the link. */
  datatype SearchMessage = SearchMessage(source: string, title: string, summary: Option<string>, link: string)

  /** The results as `(source, article)` pairs, in dictionary order. */
  function HitPairs(h: F.Hit): (ps: seq<(string, F.Article)>)
    ensures |ps| == |h.articles|
    ensures forall k :: 0 <= k < |ps| ==> ps[k] == (h.source, h.articles[k])
  {
    seq(|h.articles|, k requires 0 <= k < |h.articles| => (h.source, h.articles[k]))
  }

  function HitRows(results: seq<F.Hit>): (rows: seq<seq<(string, F.Article)>>)
    ensures |rows| == |results|
    ensures forall i :: 0 <= i < |rows| ==> rows[i] == HitPairs(results[i])
  {
    seq(|results|, i requires 0 <= i < |results| => HitPairs(results[i]))
  }

  function FlatHits(results: seq<F.Hit>): seq<(string, F.Article)>
  {
    Flatten(HitRows(results))
  }

  function SearchMessageOf(p: (string, F.Article)): SearchMessage
  {
    SearchMessage(p.0, p.1.title, ShownSummary(p.1.summary, SearchSummaryLimit), p.1.link)
  }

  function Render(ps: seq<(string, F.Article)>): (ms: seq<SearchMessage>)
    ensures |ms| == |ps|
    ensures forall k :: 0 <= k < |ms| ==> ms[k] == SearchMessageOf(ps[k])
  {
    seq(|ps|, k requires 0 <= k < |ps| => SearchMessageOf(ps[k]))
  }

  /** `max_results` as a count of articles: a negative cap sends nothing. */
  function Cap(maxResults: int): nat
  {
    if maxResults < 0 then 0 else maxResults
  }

  /** The hits of the first `i + 1` results are those of the first `i`
      followed by the hits of result `i`. */
  lemma FlatHitsStep(results: seq<F.Hit>, i: nat)
    requires i < |results|
    ensures FlatHits(results[..i + 1]) == FlatHits(results[..i]) + HitPairs(results[i])
  {
    assert HitRows(results[..i + 1]) == HitRows(results[..i]) + [HitPairs(results[i])];
    FlattenAppend(HitRows(results[..i]), HitPairs(results[i]));
  }

  /** Sending the first `cap` of the earlier hits and then as many of the
      next row as still fit is sending the first `cap` of both. */
  lemma CappedStep<T>(prev: seq<T>, row: seq<T>, cap: nat)
    ensures |Take(prev, cap)| <= cap
    ensures Take(prev, cap) + Take(row, cap - |Take(prev, cap)|) == Take(prev + row, cap)
  {
    if |prev| < cap {
      assert Take(prev, cap) == prev;
      if |prev| + |row| > cap {
        assert (prev + row)[..cap] == prev + row[..cap - |prev|];
      } else {
        assert prev + row == Take(prev + row, cap);
      }
    } else {
      assert (prev + row)[..cap] == prev[..cap];
    }
  }

  /** The messages of two runs of pairs are those of the joined run. */
  lemma RenderAppend(a: seq<(string, F.Article)>, b: seq<(string, F.Article)>)
    ensures Render(a) + Render(b) == Render(a + b)
  {
  }

  /** The inner loop of `search_command` for one source: its articles in
      order, stopping once `max_results` were sent in all, one usage each. */
  method DeliverHit(m: SubscriptionManager, u: string, h: F.Hit, maxResults: int, today: int, count: int)
    returns (sent: seq<SearchMessage>)
    requires 0 <= count <= Cap(maxResults)
    modifies m
    ensures sent == Render(Take(HitPairs(h), Cap(maxResults) - count))
    ensures m.subscriptions == IncrementN(old(m.subscriptions), u, today, |sent|)
  {
    ghost var m0 := m.subscriptions;
    IncrementNNext(m0, u, today, 0);
    ghost var row := HitPairs(h);
    ghost var room := Cap(maxResults) - count;
    sent := [];
    var j := 0;
    while j < |h.articles|
      invariant 0 <= j <= |h.articles| && j <= room
      invariant sent == Render(row[..j])
      invariant m.subscriptions == IncrementN(m0, u, today, j)
      invariant j < |h.articles| && j < room ==> count + j < maxResults
    {
      if count + j >= maxResults {
        break;
      }
      m.IncrementUsage(u, today);
      IncrementNNext(m0, u, today, j);
      assert row[..j + 1] == row[..j] + [(h.source, h.articles[j])];
      RenderAppend(row[..j], [(h.source, h.articles[j])]);
      sent := sent + [SearchMessageOf((h.source, h.articles[j]))];
      j := j + 1;
    }
    assert row[..j] == Take(row, room);
  }

  /** One source more: what was sent for the earlier ones, then what still
      fits of this one, is what the cap allows of them all. */
  lemma DeliveryStep(results: seq<F.Hit>, i: nat, cap: nat)
    requires i < |results|
    ensures var sofar := Take(FlatHits(results[..i]), cap);
      && |sofar| <= cap
      && Render(sofar) + Render(Take(HitPairs(results[i]), cap - |sofar|)) ==
         Render(Take(FlatHits(results[..i + 1]), cap))
  {
    var prev := FlatHits(results[..i]);
    CappedStep(prev, HitPairs(results[i]), cap);
    RenderAppend(Take(prev, cap), Take(HitPairs(results[i]), cap - |Take(prev, cap)|));
    FlatHitsStep(results, i);
  }

  /** The delivery loop's messages after the first `i` results: the first
      `cap` of their hits, `count` of them. */
  ghost predicate SentSoFar(results: seq<F.Hit>, i: nat, cap: nat, sent: seq<SearchMessage>, count: nat)
  {
    && i <= |results|
    && count == |sent| <= cap
    && sent == Render(Take(FlatHits(results[..i]), cap))
  }

  /** One source more for the delivery loop. */
  lemma DeliveredStep(results: seq<F.Hit>, i: nat, cap: nat, sent: seq<SearchMessage>, count: nat,
                      more: seq<SearchMessage>)
    requires i < |results| && SentSoFar(results, i, cap, sent, count)
    requires more == Render(Take(HitPairs(results[i]), cap - count))
    ensures SentSoFar(results, i + 1, cap, sent + more, count + |more|)
  {
    DeliveryStep(results, i, cap);
  }

  /** The delivery loop of `search_command`: for each source in order, each
      of its articles in order, stop once `max_results` were sent, and count
      one usage per article sent. */
  method DeliverSearchResults(m: SubscriptionManager, u: string, results: seq<F.Hit>, maxResults: int, today: int)
    returns (sent: seq<SearchMessage>)
    modifies m
    ensures sent == Render(Take(FlatHits(results), Cap(maxResults)))
    ensures m.subscriptions == IncrementN(old(m.subscriptions), u, today, |sent|)
  {
    ghost var m0 := m.subscriptions;
    ghost var cap := Cap(maxResults);
    IncrementNNext(m0, u, today, 0);
    sent := [];
    var count: nat := 0;
    var i: nat := 0;
    while i < |results| && count < maxResults
      invariant SentSoFar(results, i, cap, sent, count)
      invariant CountedOn(m0, m.subscriptions, u, today, count)
    {
      ghost var subs := m.subscriptions;
      var more := DeliverHit(m, u, results[i], maxResults, today, count);
      DeliveredStep(results, i, cap, sent, count, more);
      ghost var before := count;
      sent, count, i := sent + more, count + |more|, i + 1;
      IncrementNMore(m0, subs, m.subscriptions, u, today, before, |more|, count);
    }
    DeliveryDone(results, i, cap);
  }

  /** The delivery ends with everything the cap allows: either every source
      was gone through, or the cap was reached on the first `i`. */
  lemma DeliveryDone(results: seq<F.Hit>, i: nat, cap: nat)
    requires i <= |results|
    requires i == |results| || |Take(FlatHits(results[..i]), cap)| == cap
    ensures Take(FlatHits(results[..i]), cap) == Take(FlatHits(results), cap)
  {
    if i < |results| {
      FlattenPrefix(HitRows(results), i);
      assert HitRows(results)[..i] == HitRows(results[..i]);
      TakeOfPrefix(FlatHits(results[..i]), FlatHits(results), cap);
    } else {
      assert results[..i] == results;
    }
  }

  datatype SearchReply =
    | SearchLimitReached
    | NeedKeyword
    | NoResults(keyword: string)
    | SearchResults(sent: seq<SearchMessage>, upsell: Option<Upsell>)

  /** "Showing {max_results} of {total} results". */
  datatype Upsell = Upsell(maxResults: int, total: int)

  /** The hits of a search across every catalog source, one per source. */
  function SearchHits(catalog: seq<F.Source>, keyword: string, web: string -> seq<F.Entry>): seq<F.Hit>
  {
    F.Scan(F.SearchFn(catalog, keyword, 1, web), F.Names(catalog))
  }

  /** The part of `search_command` after the keyword is known: the tier's
      cap, the scan, the capped delivery, and for a free user with more
      hits than the cap an upgrade offer. */
  function DeliveryOutcome(m2: Users, u: string, t: Tier, keyword: string, results: seq<F.Hit>,
                           now: int, today: int): Outcome<SearchReply>
  {
    var maxResults := Limits(t).searchResults;
    if results == [] then Outcome(NoResults(keyword), m2)
    else
      var sent := Take(FlatHits(results), Cap(maxResults));
      var m3 := IncrementN(m2, u, today, |sent|);
      var total := |FlatHits(results)|;
      if total > maxResults then
        Outcome(SearchResults(Render(sent), if t == Free then Some(Upsell(maxResults, total)) else None),
                CheckTier(m3, u, now))
      else Outcome(SearchResults(Render(sent), None), m3)
  }

  /** `search_command`: the daily-limit check, the keyword, then the
      delivery. */
  function SearchOutcome(catalog: seq<F.Source>, m: Users, u: string, args: seq<string>, now: int, today: int,
                         web: string -> seq<F.Entry>): Outcome<SearchReply>
  {
    var t := TierOf(m, u, now);
    var m1 := FeatureState(m, u, "daily_limit", now, today);
    if FeatureAnswer(m, u, "daily_limit", None, now, today) != Flag(true) then Outcome(SearchLimitReached, m1)
    else if args == [] then Outcome(NeedKeyword, m1)
    else
      var keyword := Join(args, ' ');
      DeliveryOutcome(CheckTier(m1, u, now), u, t, keyword, SearchHits(catalog, keyword, web), now, today)
  }

  method SearchCommand(catalog: seq<F.Source>, m: SubscriptionManager, u: string, args: seq<string>, now: int,
                       today: int, web: string -> seq<F.Entry>) returns (r: SearchReply)
    modifies m
    ensures Outcome(r, m.subscriptions) == SearchOutcome(catalog, old(m.subscriptions), u, args, now, today, web)
  {
    ghost var m0 := m.subscriptions;
    var underLimit := m.CanAccessFeature(u, "daily_limit", None, now, today);
    StatsKeepsTier(CheckTier(m0, u, now), u, today, u, now);
    if underLimit != Flag(true) {
      return SearchLimitReached;
    }
    if args == [] {
      return NeedKeyword;
    }
    var keyword := Join(args, ' ');
    var cap := m.CanAccessFeature(u, "search_results", None, now, today);
    var maxResults := cap.limit;
    var results := F.SearchAcrossSources(catalog, keyword, None, 1, web);
    if results == [] {
      return NoResults(keyword);
    }
    var total := |FlatHits(results)|;
    ghost var m2 := m.subscriptions;
    var sent := DeliverSearchResults(m, u, results, maxResults, today);
    IncrementNKeepsTier(m2, u, today, |sent|, u, now);
    var upsell: Option<Upsell> := None;
    if total > maxResults {
      var tier := m.GetUserTier(u, now);
      if tier == Free {
        upsell := Some(Upsell(maxResults, total));
      }
    }
    return SearchResults(sent, upsell);
  }

  /** `/search` stops at the daily limit before searching, and counts
      nothing unless it sends results. */
  lemma SearchGate(catalog: seq<F.Source>, m: Users, u: string, args: seq<string>, now: int, today: int,
                   web: string -> seq<F.Entry>)
    ensures var o := SearchOutcome(catalog, m, u, args, now, today, web);
      && (o.reply.SearchLimitReached? <==> CountToday(m, u, today) >= Limits(TierOf(m, u, now)).dailyArticles)
      && (!o.reply.SearchResults? ==> CountToday(o.users, u, today) == CountToday(m, u, today))
      && (!o.reply.SearchResults? ==> TierOf(o.users, u, now) == TierOf(m, u, now))
  {
    DailyLimitUsesTodaysCount(m, u, now, today);
    SearchOutcomeShape(catalog, m, u, args, now, today, web);
    GateKeepsCountAndTier(m, u, now, today);
  }

  /** What `search_command` replies before the delivery, and the store it
      leaves: the usage query, then the tier check of the delivery. */
  lemma SearchOutcomeShape(catalog: seq<F.Source>, m: Users, u: string, args: seq<string>, now: int, today: int,
                           web: string -> seq<F.Entry>)
    ensures var o := SearchOutcome(catalog, m, u, args, now, today, web);
      var m1 := FeatureState(m, u, "daily_limit", now, today);
      && (o.reply.SearchLimitReached? <==> FeatureAnswer(m, u, "daily_limit", None, now, today) != Flag(true))
      && (!o.reply.SearchResults? ==> o.users == m1 || o.users == CheckTier(m1, u, now))
      && (o.reply.SearchResults? ==>
            o == DeliveryOutcome(CheckTier(m1, u, now), u, TierOf(m, u, now), Join(args, ' '),
                                 SearchHits(catalog, Join(args, ' '), web), now, today))
  {
  }

  /** A reply that sends between one and `limit` results, the first of
      `hits` in order, and a store that counts one usage per result on top
      of `count` and keeps the tier `tier`. */
  ghost predicate SentAndCounted(o: Outcome<SearchReply>, u: string, limit: int, hits: seq<(string, F.Article)>,
                                 count: int, tier: Tier, now: int)
  {
    && o.reply.SearchResults?
    && 1 <= |o.reply.sent| <= limit
    && o.reply.sent <= Render(hits)
    && u in o.users
    && o.users[u].dailyCount == Some(count + |o.reply.sent|)
    && TierOf(o.users, u, now) == tier
  }

  /** A delivery sends at most the tier's 3 or 10 results, at least one,
      the first hits in the order of the scan, and counts each once. */
  lemma DeliveryAccounting(m2: Users, u: string, t: Tier, keyword: string, results: seq<F.Hit>, now: int, today: int)
    requires results != [] ==> results[0].articles != []
    ensures var o := DeliveryOutcome(m2, u, t, keyword, results, now, today);
      o.reply.SearchResults? ==>
        SentAndCounted(o, u, Limits(t).searchResults, FlatHits(results), CountToday(m2, u, today), TierOf(m2, u, now), now)
  {
    if results != [] {
      var hits := FlatHits(results);
      var cap := Cap(Limits(t).searchResults);
      var sent := Take(hits, cap);
      FlatHitsNonEmpty(results);
      CappedPrefix(hits, cap);
      DeliveryOutcomeShape(m2, u, t, keyword, results, now, today);
      UsageAfterDelivery(m2, u, today, |sent|, now);
    }
  }

  /** A delivery replies with the first `max_results` hits and stores the
      usages, followed by a tier check when hits were left over. */
  lemma DeliveryOutcomeShape(m2: Users, u: string, t: Tier, keyword: string, results: seq<F.Hit>, now: int, today: int)
    requires results != []
    ensures var o := DeliveryOutcome(m2, u, t, keyword, results, now, today);
      var sent := Take(FlatHits(results), Cap(Limits(t).searchResults));
      var m3 := IncrementN(m2, u, today, |sent|);
      && o.reply.SearchResults?
      && o.reply.sent == Render(sent)
      && (o.users == m3 || o.users == CheckTier(m3, u, now))
  {
  }

  /** The first `cap` hits, for a cap of at least one, are at least one and
      lead the rendering of them all. */
  lemma CappedPrefix(hits: seq<(string, F.Article)>, cap: nat)
    requires hits != [] && cap >= 1
    ensures 1 <= |Take(hits, cap)| <= cap
    ensures Render(Take(hits, cap)) <= Render(hits)
  {
    var sent := Take(hits, cap);
    assert forall k :: 0 <= k < |sent| ==> sent[k] == hits[k];
  }

  /** `n` usages on top of the count of today, with or without the tier
      check that follows, and the tier unchanged. */
  lemma UsageAfterDelivery(m2: Users, u: string, today: int, n: nat, now: int)
    requires n >= 1
    ensures u in IncrementN(m2, u, today, n)
    ensures var m3 := IncrementN(m2, u, today, n);
      && m3[u].dailyCount == Some(CountToday(m2, u, today) + n)
      && CheckTier(m3, u, now)[u].dailyCount == m3[u].dailyCount
      && TierOf(m3, u, now) == TierOf(m2, u, now)
      && TierOf(CheckTier(m3, u, now), u, now) == TierOf(m2, u, now)
  {
    IncrementNCount(m2, u, today, n);
    IncrementNKeepsTier(m2, u, today, n, u, now);
  }

  /** `/search` as a whole: past the gate it sends between one and the
      tier's cap of results, the first hits of the scan, counting each once
      on top of the count the user had. */
  lemma SearchAccounting(catalog: seq<F.Source>, m: Users, u: string, args: seq<string>, now: int, today: int,
                         web: string -> seq<F.Entry>)
    ensures var o := SearchOutcome(catalog, m, u, args, now, today, web);
      o.reply.SearchResults? ==>
        SentAndCounted(o, u, Limits(TierOf(m, u, now)).searchResults,
                       FlatHits(SearchHits(catalog, Join(args, ' '), web)), CountToday(m, u, today), TierOf(m, u, now), now)
  {
    var keyword := Join(args, ' ');
    var m2 := CheckTier(FeatureState(m, u, "daily_limit", now, today), u, now);
    var results := SearchHits(catalog, keyword, web);
    SearchOutcomeShape(catalog, m, u, args, now, today, web);
    GateKeepsCountAndTier(m, u, now, today);
    HitsFound(catalog, keyword, web);
    DeliveryAccounting(m2, u, TierOf(m, u, now), keyword, results, now, today);
  }

  /** Past the daily-limit check, the store holds the count and the tier
      the user had. */
  lemma GateKeepsCountAndTier(m: Users, u: string, now: int, today: int)
    ensures var m1 := FeatureState(m, u, "daily_limit", now, today);
      CountToday(m1, u, today) == CountToday(m, u, today) && TierOf(m1, u, now) == TierOf(m, u, now)
    ensures var m2 := CheckTier(FeatureState(m, u, "daily_limit", now, today), u, now);
      CountToday(m2, u, today) == CountToday(m, u, today) && TierOf(m2, u, now) == TierOf(m, u, now)
  {
    var m0 := CheckTier(m, u, now);
    var m1 := Stats(m0, u, today);
    CountTodayStable(m, u, now, today);
    CountTodayStable(m0, u, now, today);
    CountTodayStable(m1, u, now, today);
    StatsKeepsTier(m0, u, today, u, now);
  }

  /** Every result of the scan holds the articles its search found, so the
      first one is non-empty. */
  lemma HitsFound(catalog: seq<F.Source>, keyword: string, web: string -> seq<F.Entry>)
    ensures var results := SearchHits(catalog, keyword, web);
      results != [] ==> results[0].articles != []
  {
    var search := F.SearchFn(catalog, keyword, 1, web);
    F.ScanProperties(search, F.Names(catalog));
  }

  /** A non-empty scan has at least one hit: every key holds a non-empty list. */
  lemma FlatHitsNonEmpty(results: seq<F.Hit>)
    requires results != [] && results[0].articles != []
    ensures FlatHits(results) != []
  {
    var rows := HitRows(results);
    FlattenPrefix(rows, 1);
    FlattenAppend(rows[..0], rows[0]);
    assert rows[..1] == rows[..0] + [rows[0]];
  }

  /** With one article per source, a search never has more hits than the
      catalog has sources; when those fit the premium cap a premium user gets
      every hit and no upgrade offer, and a free user (cap 3) is shown the
      offer exactly when there were more hits than 3. */
  lemma SearchCapByTier(catalog: seq<F.Source>, m: Users, u: string, args: seq<string>, now: int, today: int,
                        web: string -> seq<F.Entry>)
    ensures var o := SearchOutcome(catalog, m, u, args, now, today, web);
      o.reply.SearchResults? ==>
        var hits := FlatHits(SearchHits(catalog, Join(args, ' '), web));
        && |hits| <= |F.Names(catalog)|
        && (TierOf(m, u, now) == Premium && |F.Names(catalog)| <= Limits(Premium).searchResults ==>
              o.reply.sent == Render(hits) && o.reply.upsell == None)
        && (TierOf(m, u, now) == Free ==> (o.reply.upsell.Some? <==> |hits| > 3))
  {
    var keyword := Join(args, ' ');
    var m2 := CheckTier(FeatureState(m, u, "daily_limit", now, today), u, now);
    SearchOutcomeShape(catalog, m, u, args, now, today, web);
    HitsPerSource(catalog, keyword, web);
    DeliveryCapByTier(m2, u, TierOf(m, u, now), keyword, SearchHits(catalog, keyword, web), now, today);
  }

  /** One article per source: no more hits than sources. */
  lemma HitsPerSource(catalog: seq<F.Source>, keyword: string, web: string -> seq<F.Entry>)
    ensures |FlatHits(SearchHits(catalog, keyword, web))| <= |F.Names(catalog)|
  {
    var search := F.SearchFn(catalog, keyword, 1, web);
    var results := SearchHits(catalog, keyword, web);
    F.ScanProperties(search, F.Names(catalog));
    SubsequenceLength(F.Keys(results), F.Names(catalog));
    forall i | 0 <= i < |results| ensures |results[i].articles| <= 1 {
      assert search(results[i].source) == Success(results[i].articles);
    }
    FlatHitsAtMostOneEach(results);
  }

  /** A premium user within the cap of 10 gets every hit and no offer; a
      free user gets the offer exactly when there are more than 3 hits. */
  lemma DeliveryCapByTier(m2: Users, u: string, t: Tier, keyword: string, results: seq<F.Hit>, now: int, today: int)
    ensures var o := DeliveryOutcome(m2, u, t, keyword, results, now, today);
      o.reply.SearchResults? ==>
        var hits := FlatHits(results);
        && (t == Premium && |hits| <= Limits(Premium).searchResults ==>
              o.reply.sent == Render(hits) && o.reply.upsell == None)
        && (t == Free ==> (o.reply.upsell.Some? <==> |hits| > 3))
  {
    if results != [] && t == Premium && |FlatHits(results)| <= Limits(Premium).searchResults {
      assert Take(FlatHits(results), Cap(Limits(t).searchResults)) == FlatHits(results);
    }
  }

  /** The real catalog has eight sources, within the premium cap of 10. */
  lemma RssFeedsWithinPremiumCap()
    ensures |F.Names(F.RssFeeds)| == 8 <= Limits(Premium).searchResults
  {
    F.RssFeedsNames();
  }

  /** At most one article per key gives at most one hit per key. */
  lemma {:induction false} FlatHitsAtMostOneEach(results: seq<F.Hit>)
    requires forall i :: 0 <= i < |results| ==> |results[i].articles| <= 1
    ensures |FlatHits(results)| <= |results|
    decreases |results|
  {
    if results != [] {
      var init := results[..|results| - 1];
      FlatHitsAtMostOneEach(init);
      assert HitRows(results) == HitRows(init) + [HitPairs(results[|results| - 1])];
      FlattenAppend(HitRows(init), HitPairs(results[|results| - 1]));
    }
  }
}
