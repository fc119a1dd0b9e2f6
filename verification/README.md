# newsbot, modelled in Dafny

This project models the core of a small news bot. Users get free or premium
access to RSS news, served by a Telegram bot and a stand-alone console
reader. The model has five Dafny modules.

- `Subscription` (subscription.dfy) is the entitlement store, one class
  `SubscriptionManager` whose `subscriptions` map field holds a record per
  user id. It covers the two-row limit table, lazy expiry of premium on
  every tier query, the whole-record replacement done by an upgrade, the
  per-day article counter with its reset on a new day, the feature checks,
  the limits report and the tier's source and category lists. It also
  covers the admin tool's "revoke premium". Each operation is given as a
  function from the old map to the new one, together with its answer. The
  class methods do the same updates in place and are proved equal to those
  functions.
- `NewsSourceFetcher` (news_source_fetcher.dfy) covers the feed catalog
  `RSS_FEEDS` and the source and category listing. It models
  `fetch_news_articles`, with its order of validation and its field
  fallbacks when an entry is normalised. It models
  `search_articles_by_keyword`, which reads 50 articles, filters them
  case-insensitively on title or summary and keeps the first
  `max_results`. It models `search_across_sources`, which searches the
  "general" feed of each source, skips sources whose search fails and keeps
  non-empty results in insertion order.
- `TelegramBot` (telegram_bot.dfy) covers the bot handlers `news_command`,
  `button_callback`, `show_categories`, `fetch_and_send_news` and
  `search_command`. Each is a method over the manager, proved equal to an
  outcome function that gives the reply and the new store. The lemmas
  cover:
  - parsing of callback data;
  - keyboards laid out two buttons to a row;
  - the 3 or 5 articles per tier;
  - the capped search delivery, which counts one usage per message;
  - summary truncation;
  - the daily-limit gates.
- `SimpleNewsBot` (simple_news_bot.dfy) covers `get_news` of the console
  reader. It checks the catalog, walks the first ten entries, applies the
  optional keyword filter and stops after five printed entries.
- `Seqs` and `Text` (seqs.dfy, text.dfy) give the Python vocabulary the
  modules use:
  - slicing with Python's stop rule;
  - list-comprehension filtering and order-preserving subsequences;
  - ASCII `lower()`;
  - the substring test `in`;
  - `str.replace(p, "")`;
  - `split` and `join` on one character;
  - `sorted()` on strings, by code point.
  
  `Wrappers` gives `Option` and `Result`.

Nothing in the model does I/O:
- A feed download is a parameter `web: string -> seq<Entry>`, which maps a
  feed address to the entries feedparser would give.
- The clock is two integer parameters: `now` in seconds and `today` as a
  day number.
- The JSON file is the map itself, and saving it is a no-op.
- Printed or sent text becomes a datatype that keeps what the code decides
  to show.

Two behaviours of the code are easy to miss, and the model keeps them:
- An upgrade replaces the whole record, counters included, not only the
  tier and the expiry (src/subscription/subscription_manager.py:78-83).
- A source callback removes every occurrence of "source_" from the data,
  not only a leading one (telegram_bot.py:296).

There is one exception. The day check of the store (ResetDay) is the
corrected one of Findings: a record with no `last_reset` is stamped with
today. The code reads a missing `last_reset` as today and stores nothing
(src/subscription/subscription_manager.py:103-107). Only the record written
by an upgrade lacks that field. For such a user, the model resets the count
on the next day, and the code keeps counting. The code's check is
ResetDayAsWritten, and the lemmas that end in "AsWritten" state its effect.
On one day both checks give the same count; they differ in the stored stamp
and so in the count of a later day. Every member whose contract states a
store built by Stats, Increment or IncrementN (usage queries, increments,
the daily limit, and the bot handlers that count) follows the corrected
check, and "## Left out" has a line for each of them.

## Model

| member | source | states |
|---|---|---|
| Subscription.CheckTier | src/subscription/subscription_manager.py:51-70 | A tier query creates no record and touches no other user. It leaves the user's record as it was, or changes only a "premium" tier to "free". The answer is the same before and after. |
| Subscription.UnknownUserIsFree | src/subscription/subscription_manager.py:55-56 | A user with no record is free, and asking leaves the store unchanged. |
| Subscription.PremiumIffActive | src/subscription/subscription_manager.py:61-64 | A user is premium exactly when the stored tier is "premium" and now is before the expiry. A missing expiry counts as 2000-01-01, so such a record is free. |
| Subscription.ExpiredDowngrade | src/subscription/subscription_manager.py:65-68 | An expired premium record is answered free and loses only its tier. A second query answers free and changes nothing more. |
| Subscription.CheckTierIdempotent | src/subscription/subscription_manager.py:51-70 | Two tier queries leave the same store as one. |
| Subscription.Upgrade | src/subscription/subscription_manager.py:72-86 | The user's key is added if missing, the user's record becomes the upgrade record, and every other user is untouched. |
| Subscription.UpgradeGrantsPremium | src/subscription/subscription_manager.py:76-81 | After an upgrade of `months` months the user is premium until now + 30·months days, and free from then on. |
| Subscription.UpgradeNotCumulative | src/subscription/subscription_manager.py:78-83 | The record an upgrade writes does not depend on what was stored before. It has no count and no reset date. |
| Subscription.ResetDay | src/subscription/subscription_manager.py:102-107 | The corrected day check (see Findings) stamps the record with today, also when no date was stored. It zeroes the count exactly when a different day was stored, and changes no other field. Today's stamp leaves the record as it was. |
| Subscription.Stats | src/subscription/subscription_manager.py:88-109 | A usage query creates the record {free, 0, today} if missing, then brings it to today with the corrected day check. It touches no other user, and the record ends stamped with today. |
| Subscription.StatsKeepsTier | src/subscription/subscription_manager.py:88-109 | A usage query changes no user's tier. |
| Subscription.CountTodayStable | src/subscription/subscription_manager.py:88-109 | Neither a tier query nor a repeated usage query on the same day changes today's count. |
| Subscription.IncrementEffect | src/subscription/subscription_manager.py:111-117 | One increment sets the count to today's count (missing = 0) plus one. It creates the record if needed, stamps it with today (the corrected day check) and touches no other user. |
| Subscription.IncrementNAdd | src/subscription/subscription_manager.py:111-117 | a increments followed by b increments are a + b increments. |
| Subscription.IncrementNCount | src/subscription/subscription_manager.py:111-117 | n ≥ 1 increments on one day add n to the count the first one saw. The record exists, is stamped with today by the corrected day check, and only the user's key can be new. |
| Subscription.IncrementNOthers | src/subscription/subscription_manager.py:111-117 | Increments for one user leave every other user's record as it was. |
| Subscription.FreshUserCounts | src/subscription/subscription_manager.py:111-117 | A user with no record who reads n ≥ 1 articles in a day has count n. |
| Subscription.IncrementNKeepsTier | src/subscription/subscription_manager.py:111-117 | Increments never change anyone's tier. |
| Subscription.UpgradedCountNeverResetsAsWritten | src/subscription/subscription_manager.py:103-107 | With the day check as written, an upgraded record never gets a reset date. Its count is the number of articles since the upgrade, whatever the days. |
| Subscription.PremiumLockedOutAsWritten | src/subscription/subscription_manager.py:137-139 | With the day check as written, 100 articles on any days after an upgrade close the premium daily limit on every later day. |
| Subscription.UpgradedCountCarriesOverAsWritten | src/subscription/subscription_manager.py:103-107 | After an upgrade, one article read on one day is still counted on another day by the check as written. The corrected check gives 0. |
| Subscription.CountIsTodaysRun | src/subscription/subscription_manager.py:102-107 | With the corrected day check, an upgraded user's count is exactly the number of articles read on the current day. |
| Subscription.NewDayReopensLimit | src/subscription/subscription_manager.py:102-107 | On a day other than the stored one, today's count is 0. |
| Subscription.Decide | src/subscription/subscription_manager.py:119-144 | The decision for each feature:<br>• "source": premium, or bbc or guardian.<br>• "category": premium, or general or world.<br>• "ai_summaries": the tier is premium.<br>• "daily_limit": count < 10 (free) or < 100 (premium).<br>• "search_results": the number 3 or 10.<br>• Any other name: false. |
| Subscription.DailyLimitUsesTodaysCount | src/subscription/subscription_manager.py:137-139 | The daily-limit check compares the count the store holds for today with the tier's limit. |
| Subscription.SourceAnswer | src/subscription/subscription_manager.py:124-127 | A source is allowed to a premium user. A free user is allowed it only if it is bbc or guardian. |
| Subscription.UpgradeUnlocksSources | src/subscription/subscription_manager.py:124-127 | A user with no record may not read techcrunch, and may once upgraded. |
| Subscription.LimitsSnapshot | src/subscription/subscription_manager.py:146-158 | The limits report holds the tier and that tier's row, plus today's usage. It has an expiry exactly for premium: the stored one, or "N/A". |
| Subscription.FreshAndUpgradedLimits | src/subscription/subscription_manager.py:146-158 | A user with no record is reported free with usage 0. After a one-month upgrade the user is premium, with usage 0 and an expiry 30 days out. |
| Subscription.AvailableSources | src/subscription/subscription_manager.py:160-176 | Premium gets the fixed eight-name list; free gets bbc and guardian. |
| Subscription.AvailableCategories | src/subscription/subscription_manager.py:178-185 | The answer is "all" exactly for premium; free gets general and world. |
| Subscription.AvailableSourcesAgreeWithCheck | src/subscription/subscription_manager.py:160-176 | Every listed source passes the "source" check. For a free user the list is exactly the sources that pass. |
| Subscription.Revoked | admin_tool.py:95-103 | Revoking sets only the tier of a known user to "free". An unknown user is not added, and other users are untouched. |
| Subscription.RevokedIsFree | admin_tool.py:95-103 | A revoked user is free at any time, and the stored expiry is kept. |
| Subscription.SubscriptionManager.constructor | src/subscription/subscription_manager.py:36-44 | The store starts as the decoded file. A missing or malformed file gives the empty store. |
| Subscription.SubscriptionManager.GetUserTier | src/subscription/subscription_manager.py:51-70 | Answers the tier and leaves the store of CheckTier. |
| Subscription.SubscriptionManager.UpgradeToPremium | src/subscription/subscription_manager.py:72-86 | Returns true and leaves the store of Upgrade. |
| Subscription.SubscriptionManager.GetUserStats | src/subscription/subscription_manager.py:88-109 | Leaves the store of Stats, with the corrected day check, and returns the user's record in it. |
| Subscription.SubscriptionManager.IncrementUsage | src/subscription/subscription_manager.py:111-117 | Leaves the store of one increment, with the corrected day check. |
| Subscription.SubscriptionManager.CanAccessFeature | src/subscription/subscription_manager.py:119-144 | Answers the feature decision for the user's tier and today's count. Leaves the tier check's store, followed by the usage query for "daily_limit". |
| Subscription.SubscriptionManager.GetLimits | src/subscription/subscription_manager.py:146-158 | Returns the limits report and leaves the store of a tier query followed by a usage query. |
| Subscription.SubscriptionManager.GetAvailableSources | src/subscription/subscription_manager.py:160-176 | Returns the tier's source list after a tier query. |
| Subscription.SubscriptionManager.GetAvailableCategories | src/subscription/subscription_manager.py:178-185 | Returns the tier's categories after a tier query. |
| Subscription.RevokePremium | admin_tool.py:95-103 | Reports whether the user was known, and leaves the store of Revoked. |
| NewsSourceFetcher.FindSource | src/source/newsSourceFetcher.py:111-118 | Finds a source exactly when its name is a key of the catalog, and the feeds found belong to that name. |
| NewsSourceFetcher.FindFeed | src/source/newsSourceFetcher.py:118-126 | Finds an address exactly when the category is a key of the source, and the address belongs to that category. |
| NewsSourceFetcher.AvailableSources | src/source/newsSourceFetcher.py:85-90 | The listing's keys are exactly the catalog's source names, and each maps to exactly that source's category keys. |
| NewsSourceFetcher.AvailableSourcesAgreeWithLookup | src/source/newsSourceFetcher.py:85-90 | The listing and the fetch's lookup agree on which names exist and on their categories. |
| NewsSourceFetcher.RssFeedsDistinct | src/source/newsSourceFetcher.py:21-83 | The catalog's source names are distinct, as in a dictionary. |
| NewsSourceFetcher.RssFeedsNames | src/source/newsSourceFetcher.py:21-83 | The catalog's sources, in order, are bbc, guardian, nytimes, techcrunch, arstechnica, wired, reuters and aljazeera. |
| NewsSourceFetcher.CatalogNamesPlain | src/source/newsSourceFetcher.py:21-83 | No catalog source name contains "_", and none ends in "y". |
| NewsSourceFetcher.EveryRssSourceHasGeneral | src/source/newsSourceFetcher.py:21-83 | Every catalog source has a "general" feed, the one the cross-source search reads. |
| NewsSourceFetcher.SummaryOf | src/source/newsSourceFetcher.py:146-150 | The summary is `summary`, else `description`, else the first content block's value, else "". It fails when `content` is an empty list. |
| NewsSourceFetcher.Normalize | src/source/newsSourceFetcher.py:152-159 | An article exists exactly when the summary can be read. Its title defaults to "No title", the link to "", and the date to `updated` and then "". It carries the caller's own source and category strings. |
| NewsSourceFetcher.NormalizeAll | src/source/newsSourceFetcher.py:143-161 | The window normalises exactly when every entry does. The articles are then those entries, one for one, in order. |
| NewsSourceFetcher.Fetch | src/source/newsSourceFetcher.py:106-167 | An unknown lower-cased source fails with the list of catalog names. A success means a known source and category and a non-empty feed. It returns the first min(len, max) entries, normalised, in feed order. |
| NewsSourceFetcher.FetchErrors | src/source/newsSourceFetcher.py:106-167 | Each error happens exactly in its case, checked in this order:<br>• unknown source;<br>• unknown category, listing that source's categories;<br>• empty feed;<br>• an unreadable summary in the window. |
| NewsSourceFetcher.FetchCleanFeed | src/source/newsSourceFetcher.py:143-161 | A known, non-empty feed whose summaries all read gives the first min(len, max) entries. Each is titled from its entry and carries the caller's source. |
| NewsSourceFetcher.FetchNonEmpty | src/source/newsSourceFetcher.py:136-140 | A successful fetch that asks for at least one article returns at least one. |
| NewsSourceFetcher.FetchNewsArticles | src/source/newsSourceFetcher.py:92-167 | The lookup and the normalising loop return exactly Fetch's outcome. |
| NewsSourceFetcher.NormalizeAllPrefixFails | src/source/newsSourceFetcher.py:144-161 | One unreadable entry fails the whole window. |
| NewsSourceFetcher.SearchByKeyword | src/source/newsSourceFetcher.py:169-204 | A failed fetch of 50 is re-raised as a search error. Otherwise the result is drawn from the pool in order, at most 50 articles. It is a prefix of the matching articles, each of which has the lower-cased keyword in its lower-cased title or summary. Its length is the smaller of max_results and the number of matches. A negative max_results drops that many from the end, as a Python slice does. |
| NewsSourceFetcher.SearchIsComplete | src/source/newsSourceFetcher.py:194-201 | A result shorter than max_results is the whole list of matching articles of the pool, in order and with repeats. |
| NewsSourceFetcher.Assign | src/source/newsSourceFetcher.py:232 | Dictionary assignment keeps an existing key in its place and puts a new key last. Only that key's value changes, and keys stay distinct. |
| NewsSourceFetcher.ScanStep | src/source/newsSourceFetcher.py:225-235 | Scanning one source more keeps every property of the scan's outcome. |
| NewsSourceFetcher.ScanProperties | src/source/newsSourceFetcher.py:220-237 | The result's keys are the requested sources whose search succeeds with a non-empty result. A failing source is skipped. Each key holds that source's result, appears once, and the keys are a subsequence of the request. |
| NewsSourceFetcher.SearchAcrossSources | src/source/newsSourceFetcher.py:206-237 | The loop returns exactly the scan of the given sources, or of every catalog source by default, over their "general" feeds. |
| TelegramBot.ParseSourceData | telegram_bot.py:295-296 | Data starting with "source_" is read as a source callback: the data with every "source_" removed. |
| TelegramBot.SourceCallbackRoundTrip | telegram_bot.py:295-296 | A source button's data parses back to its source when the name does not contain "source_". |
| TelegramBot.SourceCallbackRemovesEveryPrefix | telegram_bot.py:296 | Every "source_" is removed, not only the leading one: "source_" + name + "source_" parses to the bare name. |
| TelegramBot.ParseCategoryData | telegram_bot.py:320-323 | Data starting with "category_" has every "category_" removed and is split on "_". The first piece is the source and the rest, re-joined with "_", is the category. |
| TelegramBot.CategoryCallbackRoundTrip | telegram_bot.py:320-323 | A category button's data parses back to its source and category. The source must contain no "_" and not end in "category". The category may contain "_" but not "category_". |
| TelegramBot.CatalogCallbacksRoundTrip | telegram_bot.py:295-323 | For every catalog source and any category without "_", both kinds of button the bot builds parse back to what they were built from. |
| TelegramBot.CategoryAllowedAgreesWithCheck | telegram_bot.py:326-327 | The callback's category test agrees with the manager's "category" feature check, both ways. |
| TelegramBot.PairUpFlatten | telegram_bot.py:239-251 | Read row by row, the keyboard gives back the buttons in order. |
| TelegramBot.PairUpRows | telegram_bot.py:239-251 | There are half as many rows as buttons, rounded up. Every row has two buttons except the last, which has one exactly when the count is odd. |
| TelegramBot.ChunkPairs | telegram_bot.py:239-251 | The row-filling loop lays the buttons out exactly as PairUp does. |
| TelegramBot.SourceButtons | telegram_bot.py:239-245 | One button per source, in the given order, with data "source_" + name. |
| TelegramBot.FreeSourceKeyboard | telegram_bot.py:239-262 | A free user sees bbc and guardian on one row, then the Unlock row. |
| TelegramBot.SourceKeyboardShape | telegram_bot.py:239-262 | The source keyboard lists each of the tier's sources once, sorted, two to a row. The Unlock row comes last exactly for a free user. |
| TelegramBot.CatalogCategoriesAgreeWithListing | telegram_bot.py:374-375 | The categories shown are the listing's `get(source, {})`. |
| TelegramBot.CategoryButtons | telegram_bot.py:380-391 | One button per category, in order, with data "category_<source>_<category>". A button is locked exactly when the tier does not allow its category. |
| TelegramBot.CategoryLockMatchesRefusal | telegram_bot.py:382-385 | A category button shows a lock exactly when pressing it is refused. |
| TelegramBot.UnknownSourceKeyboard | telegram_bot.py:374-399 | An unknown source gets only the Back row. |
| TelegramBot.ArticleCount | telegram_bot.py:418-420 | 3 articles exactly for a free user; 5 for premium. |
| TelegramBot.Truncated | telegram_bot.py:447-451 | A summary that fits is kept. A longer one becomes its first `limit` characters followed by "...". |
| TelegramBot.ShownSummaryFits | telegram_bot.py:447-451 | A summary is shown exactly when it is non-empty. It is at most limit + 3 long, starts with the first `limit` characters, and equals the original when that fits. |
| TelegramBot.ArticleMessages | telegram_bot.py:437-453 | One message per article, in order, numbered i of n from 1. |
| TelegramBot.FetchAccounting | telegram_bot.py:416-457 | A delivery sends between one and 3 (free) or 5 (premium) articles and adds exactly that many to today's count. A failed fetch counts nothing. No tier changes either way. |
| TelegramBot.FetchOutcomeShape | telegram_bot.py:416-463 | A failed fetch replies with its error after the tier query. A success sends the articles' messages and counts one usage per article. |
| TelegramBot.SendArticles | telegram_bot.py:437-457 | The sending loop makes one message and one usage per article. |
| TelegramBot.FetchAndSendNews | telegram_bot.py:408-463 | The handler's reply and store are exactly the outcome of `fetch_and_send_news`. |
| TelegramBot.ShowCategories | telegram_bot.py:371-406 | Returns the category keyboard for the tier, after one tier query. |
| TelegramBot.SourcePressGate | telegram_bot.py:295-318 | A source press is refused exactly when the user is free and the source is neither bbc nor guardian. Otherwise it shows that source's categories. |
| TelegramBot.PremiumSourcesAreTheCatalog | src/subscription/subscription_manager.py:164-174 | The premium source list holds exactly the catalog's sources. |
| TelegramBot.CategoryPressGate | telegram_bot.py:320-344 | A category press is refused exactly when the user is free and the category is neither general nor world. An allowed press always goes on to fetch. |
| TelegramBot.ButtonCallback | telegram_bot.py:270-344 | The dispatch's reply and store are exactly the outcome of `button_callback`. |
| TelegramBot.NewsCommandGate | telegram_bot.py:210-221 | /news stops at the limit exactly when today's count has reached the tier's daily limit. It counts nothing and changes no tier. |
| TelegramBot.NewsCommand | telegram_bot.py:206-268 | The handler's reply and store are exactly the outcome of `news_command`. |
| TelegramBot.ShowSourcePicker | telegram_bot.py:223-262 | Returns the tier's source keyboard, after two tier queries. |
| TelegramBot.SourcePickerRows | telegram_bot.py:239-251 | The sorted sources, one button each, two to a row. |
| TelegramBot.DeliverHit | telegram_bot.py:507-526 | The inner loop sends as many of one source's articles, in order, as still fit under max_results. It counts one usage per message. |
| TelegramBot.DeliverSearchResults | telegram_bot.py:503-529 | The delivery sends exactly the first max_results hits, taking sources and then articles in order, and counts one usage per message sent. |
| TelegramBot.DeliveryDone | telegram_bot.py:528-529 | Leaving the outer loop early, once the cap is reached, sends what going through every source would. |
| TelegramBot.SearchCommand | telegram_bot.py:465-550 | The handler's reply and store are exactly the outcome of `search_command`. |
| TelegramBot.SearchGate | telegram_bot.py:469-483 | /search stops at the limit exactly when today's count has reached the tier's daily limit. A reply without results counts nothing and changes no tier. |
| TelegramBot.GateKeepsCountAndTier | telegram_bot.py:470 | The daily-limit check and a tier query leave today's count and the tier as they were. |
| TelegramBot.DeliveryAccounting | telegram_bot.py:503-529 | A delivery sends between one and max_results messages, a prefix of all the hits in order. The count rises by exactly the number sent, and the tier is kept. |
| TelegramBot.SearchAccounting | telegram_bot.py:465-529 | The whole /search: past the gates it sends between one and the tier's 3 or 10 results, the first hits of the scan. Each result adds one to the count the user had. |
| TelegramBot.SearchCapByTier | telegram_bot.py:494-546 | With one article per source there are no more hits than sources. Within 10 hits a premium user gets them all and no offer. A free user gets the upgrade offer exactly when there are more than 3 hits. |
| TelegramBot.HitsPerSource | telegram_bot.py:495-497 | A search with one article per source has no more hits than the catalog has sources. |
| TelegramBot.DeliveryCapByTier | telegram_bot.py:531-546 | The upgrade offer goes to a free user exactly when the hits exceed 3, and never to premium within its cap. |
| TelegramBot.RssFeedsWithinPremiumCap | src/source/newsSourceFetcher.py:21-83 | The real catalog has 8 sources, within the premium search cap of 10. |
| SimpleNewsBot.RunSettled | simple_news_bot.py:76-77 | Once five are printed, or an entry has raised, later entries change nothing. |
| SimpleNewsBot.RunPrintsFirstSelected | simple_news_bot.py:55-77 | Until an entry raises, the walk prints exactly the first five entries that pass the filter, in feed order. After one raises, it has printed a prefix of them. |
| SimpleNewsBot.RunPrintsAtMostFive | simple_news_bot.py:66-77 | No more than five entries are printed. |
| SimpleNewsBot.CleanRunGoesOn | simple_news_bot.py:56-77 | The walk only stops early on an entry that raises. |
| SimpleNewsBot.KeywordInEveryPrinted | simple_news_bot.py:58-64 | With a keyword, every printed entry has it, lower-cased, in its lower-cased title or summary. |
| SimpleNewsBot.UnknownInputsPrintNoEntry | simple_news_bot.py:36-44 | An unknown source, or an unknown category of a known source, is reported before anything is fetched, each exactly in its case. |
| SimpleNewsBot.OnlyFirstTenMatter | simple_news_bot.py:56 | Entries after the tenth never change the outcome. |
| SimpleNewsBot.CleanFeedListing | simple_news_bot.py:51-80 | When no entry of the window raises, the call prints the first five selected entries of the first ten. It prints "no articles matching" exactly when a keyword was given and none of the ten matched. |
| SimpleNewsBot.SimpleFeedsTable | simple_news_bot.py:11-29 | The reader's table has three sources (bbc, cnn, guardian), and cnn has general, world and technology. |
| SimpleNewsBot.GetNews | simple_news_bot.py:31-80 | The method's outcome is exactly that of `get_news`. |
| SimpleNewsBot.WalkEntries | simple_news_bot.py:55-77 | The loop, with `continue` on a non-match and `break` at five, ends exactly where the walk does. |

## Left out

- Network, parsing and inference are not modelled: feedparser, HTTP, HTML scraping and the summarizer (src/getter, src/parser, src/generation, src/summarizer). A feed is the parameter `web`.
- Printed and logged text is not modelled: console output, the feed warnings of fetch_news_articles (newsSourceFetcher.py:129-134), `logger` calls, and the Markdown and emoji of replies. Exception messages are kept only as the error's kind and its fields.
- Persistence is not modelled beyond the map: the JSON file and `_save_subscriptions` are the map itself. Records whose fields have the wrong JSON type, and `fromisoformat` failing on a malformed date, are not modelled.
- The clock is two parameters. ISO date-string equality is equality of day numbers, and time zones are not modelled.
- Upgrade: always writes the premium record. In the code, `datetime.now() + timedelta(days=30 * months)` raises OverflowError when the expiry falls outside the years 1 to 9999, for example months of about 97,000 or more (subscription_manager.py:76). It raises before the record is written, so the store is left unchanged. The range of `datetime` is not modelled.
- UpgradeToPremium: always returns true and leaves the store of Upgrade. For a months value whose expiry is past the range of `datetime`, the code raises instead and changes nothing. admin_tool.py:31-46 passes on any integer the admin types and catches only ValueError.
- Concurrency is not modelled: two handlers racing on the shared store, last writer wins. The model is sequential.
- `lower()` is ASCII lower-casing. Unicode case folding is not modelled.
- The `/start`, `/help`, `/sources`, `/status` and `/premium` commands only show text, and so do `show_premium_inline` and `error_handler`; handler registration and the polling loop are left out too (telegram_bot.py:44-204, 346-369, 552-589). Data "back_sources" matches no branch of `button_callback` and is modelled as no reply, as in the code.
- The `if not articles` branch of `fetch_and_send_news` (telegram_bot.py:426-430) is dead code: a fetch of at least one article never succeeds empty (FetchNonEmpty). It is left out.
- The generic `except Exception` branches of the bot cannot be reached in the model. The fetcher turns every failure into its own error, and Telegram send failures are not modelled.
- A category press does not re-check the daily limit or the source's entitlement. A free user can fetch a premium source through crafted callback data. The model reproduces this (CategoryPressGate) rather than correcting it.
- `show_categories` closes a row on `i % 2 == 0` with `i` counted from 1, while `news_command` closes one on `len(row) == 2`. Both lay buttons out the same way, and both are modelled by PairUp and ChunkPairs.
- Button labels (emoji, `upper()`, `capitalize()`) are not modelled. A button keeps its callback data and whether it shows a lock.
- In simple_news_bot.py, an entry that raises part-way through printing (title printed, link missing) is not recorded as printed: the Aborted outcome keeps only the entries printed in full before it. The interactive `main` loop is left out.
- The console menus of main.py and admin_tool.py are left out, except the admin "revoke premium", which is RevokePremium.
- ResetDay: stamps a record that has no `last_reset` with today. The code leaves such a record without the field (subscription_manager.py:103-107). This is the corrected check of Findings.
- Stats: the usage query uses ResetDay. A record written by an upgrade ends stamped with today, and its count is reset on the next day, which the code does not do.
- GetUserStats: leaves the store of Stats, so it differs from the code in the same way.
- IncrementEffect: "stamped with today" and "today's count plus one" are about the corrected check. In the code an upgraded record keeps no date and its count carries over from earlier days.
- IncrementNCount: the same as IncrementEffect, for n increments.
- IncrementUsage: leaves the store of Increment, which uses the corrected check.
- DailyLimitUsesTodaysCount: the count it compares is today's count under the corrected check.
- CanAccessFeature: for "daily_limit" it leaves the store of Stats, so a record written by an upgrade ends stamped with today, which the code does not store.
- GetLimits: leaves the store of Stats after the tier query, so a record written by an upgrade ends stamped with today, which the code does not store.
- FetchOutcomeShape: on success the store is that of IncrementN, whose records are stamped with today by the corrected check. The code leaves an upgraded record without a date.
- SendArticles: leaves the store of IncrementN, so it differs from the code in the same way as FetchOutcomeShape.
- FetchAndSendNews: its store is that of FetchOutcomeShape, with the corrected stamp.
- ButtonCallback: after a category press its store is that of FetchAndSendNews, with the corrected stamp.
- NewsCommand: its store passes through the "daily_limit" usage query, so a record written by an upgrade ends stamped with today, which the code does not store.
- DeliverHit: leaves the store of IncrementN, with the corrected stamp.
- DeliverSearchResults: leaves the store of IncrementN, with the corrected stamp.
- SearchCommand: its store passes through the "daily_limit" usage query and the increments of the delivery, both with the corrected stamp.
- NewsCommandGate: "today's count" is the count under the corrected check. For a user whose record was written by an upgrade, the code compares the count since the upgrade.
- SearchGate: the same as NewsCommandGate.
- FetchAccounting: the count that rises is today's count under the corrected check.
- SearchAccounting: the same as FetchAccounting.
- Fetch: its own contract states the unknown-source error and the success case. Which error the other failures give is stated separately, by FetchErrors.

## Findings

| source | as written | input that shows it | evidently intended | confidence | as-written member | corrected member |
|---|---|---|---|---|---|---|
| src/subscription/subscription_manager.py:103-107 | The record written by an upgrade has no `last_reset`. The day check reads a missing `last_reset` as today and does not store it, so that record's count is never reset. | A user upgraded on day 1 reads 100 articles over days 1 to 3. On day 4 the daily-limit check still refuses. | A missing `last_reset` is stamped with today, so that the next day's check resets the count. | not executed | `Subscription.PremiumLockedOutAsWritten` | `Subscription.CountIsTodaysRun` |
