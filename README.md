# EconDecode news dashboard and company insights — a Dafny model

EconDecode is a small web application. Its browser side has two parts.
The news dashboard shows local and global economic news in pages, with a
search box, a "Load more" button, a settings tab (a country override and
keywords for the global feed) and a chat panel. The company insights part
keeps a watchlist of companies, fetches a profile for each one, analyses
product photos and classifies what the profile says for display: the
recommendation slider, the ticker badge and the stock notice. Its Flask
backend validates the news query, shapes the news provider's answer, reads
the impact rating out of a model's text, normalises the recommendation
signal, checks a company's domain and gates the stock lookup.

This project models that core and proves properties of the model:

- `text.dfy` (`Text`): JavaScript `trim()` and Python `strip()`, each with
  its own whitespace set; ASCII case mapping; `includes`; `split` and
  `join`; first-occurrence de-duplication; decimal rendering of integers.
- `keywords.dfy` (`Keywords`): the keyword normaliser of the settings page,
  and the sorted comparison that decides whether the keyword list changed.
- `news.dfy` (`News`): articles, the ingestion filter, the search filter,
  the page counter rule and the "Load more" visibility rule.
- `dashboard_state.dfy` (`DashboardState`): the dashboard's `state` record
  as a value. Each handler is a function on it. Asynchronous handlers are
  split at their `await` into a Begin part (guard, reset, the request sent)
  and a Finish part (what the response does).
- `dashboard.dfy` (`Dashboard.Page`): the same handlers as methods of a
  class whose fields are the `state` record. Each method is proved to
  leave exactly the state the matching function computes, and to keep the
  invariant that only valid articles are ever held.
- `insights_state.dfy` (`InsightsState`): one watchlist entry, the profile
  fetch, the "add company" checks, `splice`, the product analysis buffer
  and the analyzer's "add to watchlist" entry, all as values.
- `insights.dfy` (`Insights`): the watchlist entries and the product
  analysis as classes updated in place, with the list editor, the save,
  the one-by-one loading loop and the analyzer's add button.
- `backend.dfy` (`Backend`): the `/api/news` checks and reply shaping, with
  Python's `int()` on the query arguments; the impact-rating extraction;
  the recommendation signal; the domain check; the stock lookup gate.
- `classify.dfy` (`Classify`): the profile card's recommendation slider,
  the note under it, the ticker badge and the stock section's notice.

Values the browser or server receives are inputs of the model: responses
of `fetch`, the model's text, the window width, identifiers made by
`generateUniqueId`. A missing or `null` string field of a decoded body is
written `""`, because every test the code makes on it is a truthiness test.

## Model

| member | source | states |
|---|---|---|
| Text.Trim | static/dashboard.js:231 | The trimmed text keeps only characters of the input, is empty exactly when the input is blank, and has no whitespace at either end |
| Text.TrimIdempotent | static/insights.js:448 | Trimming twice is trimming once |
| Text.ToLowerIdempotent | static/dashboard.js:749 | Lower-casing twice is lower-casing once |
| Text.Or | static/insights.js:200 | `a \|\| b` on strings: the first operand unless it is empty; non-empty whenever the fallback is |
| Text.ContainsIff | static/dashboard.js:757-759 | `includes` holds exactly when the text occurs at some position |
| Text.JoinSplit | static/dashboard.js:235 | Joining the pieces of `split(',')` with the separator gives back the text |
| Text.SplitJoin | static/dashboard.js:235 | Splitting a join of separator-free pieces gives back the pieces |
| Text.Dedupe | static/dashboard.js:238 | `indexOf(value) === index` keeps each value once, loses none and invents none |
| Text.DedupeKeepsFirstOrder | static/dashboard.js:238 | The kept values are in the order of their first occurrence |
| Text.DigitsValueOfNatToString | app.py:312-314 | The decimal rendering of a number reads back as that number |
| Keywords.CleanPieceShape | static/dashboard.js:236 | A cleaned keyword is lower case, trimmed, and has no comma when its piece had none |
| Keywords.CleanPiecesMembers | static/dashboard.js:235-237 | After the map and the filter, the list holds exactly the non-empty cleaned pieces |
| Keywords.NonEmptyMembers | static/dashboard.js:237 | `filter(kw => kw !== '')` keeps exactly the non-empty entries |
| Keywords.Pieces | static/dashboard.js:231-235 | The comma pieces join back to the trimmed input |
| Keywords.NormalizeSpec | static/dashboard.js:231-240 | Blank input stores the empty list; otherwise the stored keywords have no repeats, are non-empty, lower case, trimmed and comma-free, and are exactly the non-empty cleaned pieces |
| Keywords.NormalizeKeepsFirstOrder | static/dashboard.js:238 | The stored order is the order in which each keyword first appears |
| Keywords.Insert | static/dashboard.js:232 | Inserting into a sorted list gives a sorted permutation of the list plus the new element |
| Keywords.SortStrings | static/dashboard.js:243 | `slice().sort()` yields a sorted permutation of its input |
| Keywords.SortedUnique | static/dashboard.js:232-245 | Two sorted lists with the same elements are equal |
| Keywords.KeywordsChangedIff | static/dashboard.js:232-245 | Comparing the sorted old and new lists detects exactly a change in the multiset of keywords |
| News.ValidArticlesSpec | static/dashboard.js:658-661 | The ingestion filter keeps exactly the articles with title, description, url and source name; it never grows the list; its result passes it unchanged |
| News.AllValidIff | static/dashboard.js:659-661 | A list passes the filter unchanged exactly when each article is valid |
| News.ValidArticlesAppend | static/dashboard.js:664 | Filtering a concatenation is concatenating the filtered parts |
| News.SearchKeyEmptyIff | static/dashboard.js:749-752 | The search key is empty exactly when the typed term is blank |
| News.FilterMatchingSpec | static/dashboard.js:756-760 | The search view holds exactly the collection's articles whose title, description or source name contains the key, and is no longer than the collection |
| News.FilterMatchingAppend | static/dashboard.js:756-760 | The search filter keeps the collection's order |
| News.FilterCommutes | static/dashboard.js:756-760 | The search filter and the ingestion filter commute |
| News.FilterViewWithin | static/dashboard.js:748-765 | The view never holds an article the collection lacks, nor an invalid one |
| News.SearchIgnoresCase | static/dashboard.js:749 | Typing the term in any case gives the same view |
| News.NewsErrorMessage | static/dashboard.js:678 | The error recorded for a failed fetch is never empty |
| DashboardState.InitialValid | static/dashboard.js:2-25 | The initial state holds no invalid article and no fetch is in flight |
| DashboardState.BeginFetchSpec | static/dashboard.js:609-649 | A fetch while one of the same kind (reset or load more) is in flight does nothing; otherwise the request asks for page 1 after emptying the collection (reset) or for the current page (load more); a reset sets only the loading flag, the error and that collection, a load more only its flag; validity is kept |
| DashboardState.RequestForSpec | static/dashboard.js:644-650 | The query carries the chosen country only for local news and the keywords joined by " OR " only for global news |
| DashboardState.FilterActiveSpec | static/dashboard.js:748-765 | Only the active tab's view is recomputed (global on any non-local tab); the collections are untouched; filtering twice is filtering once |
| DashboardState.SearchSpec | static/dashboard.js:1013 | After typing, a blank term shows the whole collection, otherwise exactly its matching articles |
| DashboardState.AbsorbSpec | static/dashboard.js:653-684 | The `try` block changes only the fetched collection or the error, and refreshes the shown view |
| DashboardState.IngestValid | static/dashboard.js:658-673 | Ingesting a response keeps a collection valid |
| DashboardState.SettleSpec | static/dashboard.js:692-700 | The `finally` block only clears the flag of its own kind and, after a reset of the shown tab, refreshes its view |
| DashboardState.FinishFetchClearsFlag | static/dashboard.js:692-694 | A completed fetch clears its own loading flag and leaves the other flag alone |
| DashboardState.FinishFetchOk | static/dashboard.js:657-676 | An ok response replaces or extends the collection with its valid articles, records the total, moves the page on exactly when it brought a valid article or the total exceeds what is loaded, and leaves the other collection's articles, page and total alone |
| DashboardState.FinishFetchFailure | static/dashboard.js:677-691 | Any other response records a non-empty error and leaves both collections, pages and totals as they were |
| DashboardState.FinishFetchRefreshesView | static/dashboard.js:676-697 | After a reset or an ok response on the shown tab, the view matches the collection and the search term |
| DashboardState.LoadMoreKeepsPrefix | static/dashboard.js:664 | A load more keeps the articles already held first and in order |
| DashboardState.FinishFetchKeepsValid | static/dashboard.js:608-701 | No fetch lets an invalid article into a collection or a view |
| DashboardState.LoadMoreShownOnlyAfterAdvance | static/dashboard.js:541-548 | When "Load more" is shown after an ok response, the page counter has advanced past the page received |
| DashboardState.SearchHidesLoadMore | static/dashboard.js:545-546 | A non-blank search term hides "Load more" |
| DashboardState.PagingScenario | static/dashboard.js:666-668 | Two articles out of five move the page to 2 and offer "Load more"; an empty next page with the same total still moves the page, to 3 |
| DashboardState.BeginSendSpec | static/dashboard.js:705-714 | A blank message or a pending reply changes nothing; otherwise the trimmed message is posted, the chat error cleared and the chat waits, and nothing else changes |
| DashboardState.ExchangeSpec | static/dashboard.js:705-746 | A full exchange appends the user's trimmed message and one non-empty bot message, ends the wait, and sets the chat error exactly when the response is not a reply with text; feeds, tabs, flags and settings are unchanged |
| DashboardState.SaveKeywordsSpec | static/dashboard.js:229-252 | The stored keywords are the normal form of the input; the global tab is refetched from page 1 only when the keyword set changed and no reset is in flight; a change on the global tab empties the global feed (keeping its total) even when no request goes out; nothing else changes |
| DashboardState.SaveCountrySpec | static/dashboard.js:196-215 | The choice is stored (an empty one clears it); the local tab is refetched exactly when the effective country changes to a known value and no reset is in flight, and the request names the choice; such a change empties the local feed (keeping its total) even when no request goes out; nothing else changes |
| DashboardState.ArriveSpec | static/dashboard.js:955-974 | Arriving on a tab activates it; a different tab clears the search and the error; the settings tab closes the chat panel and any other tab recomputes it as a resize does; nothing else changes, so articles and all loading flags are untouched |
| DashboardState.ClickNewsTabSpec | static/dashboard.js:984-995 | A news tab is refetched from page 1 exactly when it is empty, newly entered or in error and no reset is in flight; the country lookup does not start |
| DashboardState.ClickTabValid | static/dashboard.js:921-1010 | No tab click lets an invalid article in |
| DashboardState.ClickSettingsSpec | static/dashboard.js:1004-1008 | The settings tab starts the country lookup only while the country is unknown, sends no news request and closes the chat panel |
| DashboardState.ResizeSpec | static/dashboard.js:872-918 | A large screen closes the floating panel and changes nothing else; a small one changes nothing; resizing twice is resizing once |
| Dashboard.Page.constructor | static/dashboard.js:2-25 | The fields start as the initial state |
| Dashboard.Page.ApplyNewsFilter | static/dashboard.js:748-765 | The new state is the active tab's refiltered state, and validity is kept |
| Dashboard.Page.BeginFetchNews | static/dashboard.js:608-649 | The new state and the request sent are those of the Begin step of `fetchNews` |
| Dashboard.Page.CompleteFetchNews | static/dashboard.js:651-700 | The new state is the Finish step of `fetchNews` for the response, and validity is kept |
| Dashboard.Page.StoreArticles | static/dashboard.js:658-673 | The fetched collection is replaced by its ingested form; nothing else changes |
| Dashboard.Page.HandleSearchInput | static/dashboard.js:1013 | The new state is the search function's |
| Dashboard.Page.HandleLoadMore | static/dashboard.js:1014 | The new state and request are a load-more Begin step |
| Dashboard.Page.SaveCountryOverride | static/dashboard.js:196-215 | The new state and request are those of the country save |
| Dashboard.Page.SaveGlobalKeywords | static/dashboard.js:229-252 | The new state and request are those of the keyword save |
| Dashboard.Page.BeginSendMessage | static/dashboard.js:705-714 | Reports whether the message was sent; the new state is the Begin step of `sendMessage` |
| Dashboard.Page.CompleteSendMessage | static/dashboard.js:715-746 | The new state is the Finish step of `sendMessage` |
| Dashboard.Page.OpenChatPanel | static/dashboard.js:840-842 | Only the panel flag changes, to open |
| Dashboard.Page.CloseChatPanel | static/dashboard.js:857-859 | Only the panel flag changes, to closed |
| Dashboard.Page.HandleResize | static/dashboard.js:872-918 | The new state is the resize function's |
| Dashboard.Page.HandleTabClick | static/dashboard.js:921-1010 | The new state, the request and whether the country lookup starts are the tab-click function's, and validity is kept |
| DashboardState.FinishCountryLookupSpec | static/dashboard.js:591-606 | A reached lookup leaves the country known unless the stored choice is itself a placeholder; a failed one leaves "N/A", so the settings tab asks again; nothing else changes |
| Dashboard.Page.CompleteCountryLookup | static/dashboard.js:591-606 | The detected country becomes the choice, else "US (Default)", or "N/A" when the probe failed |
| InsightsState.FetchProfileSpec | static/insights.js:508-545 | A completed fetch leaves the entry idle with exactly one of data and a non-empty error: the body of a usable response, else a message; the name never changes |
| InsightsState.StartProfileSpec | static/insights.js:511-514 | Starting a fetch raises the flag and clears data and error |
| InsightsState.FetchProfileLastWins | static/insights.js:508-545 | Of two fetches of one entry, only the last one's response shows |
| InsightsState.FetchedNotPending | static/insights.js:734 | An entry whose fetch completed is never selected for loading again |
| InsightsState.CheckNewNameSpec | static/insights.js:447-471 | A name is accepted exactly when its trimmed form is 2 to 70 characters, not all digits and not already listed in any case; each rejection has its own message, in the handler's order |
| InsightsState.AcceptKeepsDistinct | static/insights.js:453-467 | Accepting a name keeps the editor's list free of case-insensitive repeats |
| InsightsState.SpliceStart | static/insights.js:442 | The `splice` start position lies within the list (negative counts from the end) |
| InsightsState.RemoveAtSpec | static/insights.js:439-444 | Removing at a valid index deletes exactly that name and keeps the rest in order; past the end nothing changes |
| InsightsState.RemoveKeepsDistinct | static/insights.js:439-444 | Removing a name keeps the list free of repeats |
| InsightsState.AnalyzeSpec | static/insights.js:548-602 | A started analysis ends idle; an ok reply fills product, company and data; a 404 naming the product with an "unknown" company keeps them and records an error; anything else records a non-empty error with the rest cleared |
| InsightsState.NoImageSpec | static/insights.js:549-553 | Without a picture only the error changes |
| InsightsState.AnalyzerAddedSpec | static/insights.js:746-767 | The appended entry has the button's name, holds the analysis data exactly when the analysed company is that name and data is present, and otherwise has its fetch started; a repeat-free list stays repeat-free |
| Insights.NameIndexLastWins | static/insights.js:475 | The lookup table maps a lower-cased name to the last entry of that name |
| Insights.PendingOfSpec | static/insights.js:734 | Exactly the entries with no data, no error and no request in flight are selected, in list order |
| Insights.LastIndexOfSnoc | static/insights.js:736-738 | The last occurrence in a list with one more element |
| Insights.Company.constructor | static/insights.js:3-5 | A new entry holds the given name, data and flag and no error |
| Insights.Company.BeginFetch | static/insights.js:509-514 | Nothing is sent for an entry without a name; the entry becomes the started state |
| Insights.Company.CompleteFetch | static/insights.js:516-544 | The entry becomes the completed state for the response |
| Insights.ProductAnalysis.constructor | static/insights.js:6-13 | The buffer starts empty and idle |
| Insights.ProductAnalysis.Begin | static/insights.js:548-560 | A request is sent exactly when there is a picture; the buffer becomes the started state |
| Insights.ProductAnalysis.Complete | static/insights.js:562-602 | The buffer becomes the completed state for the response |
| Insights.Watchlist.constructor | static/insights.js:3-14 | The list starts with one fresh "Apple" entry and an empty editor |
| Insights.Watchlist.OpenEditor | static/insights.js:409-417 | The editor starts from the watched names with no error; the list is unchanged |
| Insights.Watchlist.AddCompany | static/insights.js:447-471 | An accepted name is appended with no error, else the list stays and the rejection's message shows |
| Insights.Watchlist.RemoveWatchedItem | static/insights.js:439-444 | The editor's names lose the element at the `splice` position |
| Insights.Watchlist.IndexByName | static/insights.js:475 | The table built entry by entry is the lower-cased name index of the list |
| Insights.Watchlist.Resolve | static/insights.js:477-483 | A known lower-cased name reuses its entry, any other gets a fresh empty one |
| Insights.Watchlist.ResolveAll | static/insights.js:477-483 | One entry per editor name, in order, each reused or fresh as above |
| Insights.Watchlist.SaveChanges | static/insights.js:473-489 | The new list follows the editor's names in order, reusing the old entry of each lower-cased name and creating fresh empty entries otherwise; the names are stored |
| Insights.Watchlist.LoadWatched | static/insights.js:733-744 | The entries selected at the start are fetched in order; each ends as the fetch of its last turn leaves it, every other entry is untouched |
| Insights.Watchlist.FetchAll | static/insights.js:736-743 | The loop over the selected entries, with a repeated entry ending as its last fetch leaves it |
| Insights.Watchlist.FetchOne | static/insights.js:738 | One turn of the loop is one whole profile fetch |
| Insights.Watchlist.AddFromAnalyzer | static/insights.js:746-767 | Nothing happens for an empty, "unknown" or already watched name; otherwise one fresh entry is appended, in the state the analyzer's add leaves it, and the names are stored |
| Insights.Watchlist.NewEntry | static/insights.js:756-761 | The new entry takes the analysis data when the analysed company is this name |
| Insights.Watchlist.StartIfEmpty | static/insights.js:766-768 | The fetch starts on the new entry only when it came without data |
| Backend.Signed | app.py:312-313 | `int()` applies the sign to the digit value |
| Backend.DropUnderscores | app.py:312-313 | Removing the digit-group underscores leaves only digits |
| Backend.DigitsUnsigned | app.py:312-313 | Plain digits, at most 4300 of them, read as their value |
| Backend.ParseIntTooLong | app.py:312-315 | A literal of more than 4300 digits is refused (`int()`'s default digit limit), with or without a minus sign |
| Backend.SignedLiteral | app.py:312-313 | A digit part reads as its value, and with a minus as the negated value |
| Backend.DigitsTrimmed | app.py:312-313 | Rendered numbers have no whitespace around them |
| Backend.ParseIntOfIntToString | app.py:312-313 | `int()` of Python's rendering of any integer `str()` can render (at most 4300 digits) gives that integer |
| Backend.RenderedNat | app.py:312-313 | A rendered natural number, and its negation, read back as themselves |
| Backend.ParseIntRefuses | app.py:312-315 | Blank text is refused; accepted text holds only digits, underscores and signs besides whitespace |
| Backend.LiteralChars | app.py:312-313 | An accepted literal is digits and underscores after an optional sign |
| Backend.ClampPage | app.py:317-318 | A page below 1 becomes 1, others are kept |
| Backend.ClampPageSize | app.py:319-322 | A page size below 1 becomes 20, above 100 becomes 100, others are kept |
| Backend.CheckNewsQuery | app.py:305-328 | An accepted query has page at least 1 and page size 1 to 100; a refusal is a 400 or a 500 |
| Backend.NewsKind | app.py:307-328 | The type, "local" when absent, is known exactly when it is "local" or "global" |
| Backend.CheckNewsQuerySpec | app.py:305-328 | Without a key: 500 "News API key not configured."; unreadable numbers: 400; an unknown type: 400; checked in that order |
| Backend.CheckNewsQueryDefaults | app.py:311-314 | Absent numbers give page 1 with the default page size |
| Backend.CheckNewsQueryStable | app.py:312-322 | Sending an accepted query's own numbers back gives the same query (for a page number `str()` can render) |
| Backend.CheckNewsQueryAccepts | app.py:310-328 | With the key set, readable numbers and a known type give the clamped query |
| Backend.ShapeNews | app.py:360-389 | The reply is 200 exactly when it is a page of articles |
| Backend.ShapeNewsSpec | app.py:360-389 | Timeout gives 504, a failed request or crash 500 with its message, a non-ok provider status 500 with its message or the fallback; an ok status gives the filtered articles, the total (0 when absent) and the page |
| Backend.GetNews | app.py:303-381 | A page reply's page number is at least 1 |
| Backend.Delivered | app.py:303-381 | What the browser decodes from a reply |
| Backend.DeliveredSpec | app.py:303-381 | The browser sees an ok response exactly for a 200 reply, and every article it receives passes its own filter |
| Backend.SkipSpaces | app.py:507 | `\s*` stops at the first non-whitespace character |
| Backend.RatingFrom | app.py:507 | A captured digit is at most 9 |
| Backend.ImpactLevel | app.py:493-514 | The impact level is at most 5 |
| Backend.ImpactLevelSpec | app.py:509-514 | The leftmost match decides: its digit when 1 to 5, else 0 |
| Backend.LeftmostRating | app.py:507 | `re.search` returns the leftmost match |
| Backend.NoRatingIsZero | app.py:497-514 | Without a match the level stays 0 |
| Backend.MatchSignal | app.py:211-213 | A match is one of the signals equal to the text ignoring case; no match means no signal is |
| Backend.RecommendSpec | app.py:181-229 | The signal is one of the five or "N/A", and it is "N/A" exactly when there is an error |
| Backend.MatchedIsSignal | app.py:207-213 | The matched signal or the "Wait" default is one of the five |
| Backend.RecommendFromText | app.py:206-213 | A response with parts gives the matched signal, else "Wait", and no error |
| Backend.ErrorsAreNonEmpty | app.py:181-229 | Every error message is non-empty |
| Backend.RecommendCanonical | app.py:207-213 | A reply that is a signal in any case, with spaces around it, yields that signal in canonical case |
| Backend.MatchSignalFinds | app.py:213 | Text equal to a signal ignoring case is matched to exactly that signal |
| Backend.SignalsDistinct | app.py:211 | No two signals are equal ignoring case |
| Backend.NotASignal | app.py:211 | "N/A" is not a signal |
| Backend.CompanyDomain | app.py:55-63 | A returned domain is not "unknown", has no space and has a dot |
| Backend.CompanyDomainSpec | app.py:55-63 | The domain is the stripped, lower-cased answer exactly when it passes the three checks |
| Backend.StockLookup | app.py:95-99 | The lookup proceeds exactly with a key and a non-empty ticker that is not PRIVATE, UNKNOWN or N/A in upper case |
| Backend.StockGateMessage | app.py:96-99 | Each early return has a message; the lookup has none |
| Backend.RouteSkipsPlaceholders | app.py:566-567 | The profile route never reaches the lookup's "not applicable" answer, and never looks up a placeholder ticker |
| Backend.RouteStockGate | app.py:566-567 | The route looks up stock data exactly for an eligible ticker, and since `FMP_API_KEY` (app.py:22) is a non-empty literal the route always gets to the stock request, never the missing-key or not-applicable return |
| Backend.TickerField | app.py:576 | `ticker or "N/A"` is never empty and keeps a non-empty ticker |
| Classify.RecommendationSlider | static/insights.js:176-191 | The thumb lands on 95, 75, 50, 25 or 5, and at 50 it has the theme's default colour |
| Classify.RecommendationSliderSpec | static/insights.js:181-188 | The first matching rule decides, each position in both directions: "strong buy" at 95, other "buy" at 75, "wait" or "N/A" at 50 as "Stable", "sell" without "strong" at 25, "strong sell" at 5; text matching no rule stays at 50 under its own words |
| Classify.SignalPositions | static/insights.js:183-187 | The backend's five signals land at 95, 75, 50, 25 and 5 with their labels, and "N/A" at 50 as "Stable" |
| Classify.StrongBuyRule | static/insights.js:183 | Any text holding "strong buy" in any case is at 95 |
| Classify.StrongSellRule | static/insights.js:187 | Text with "strong sell" and without "buy" or "wait" is at 5 |
| Classify.RecommendationNote | static/insights.js:197-201 | A note appears exactly with an error or an "N/A" recommendation, and it is the error when there is one |
| Classify.RecommendationPanel | static/insights.js:176 | The recommendation part is shown exactly when there is a recommendation |
| Classify.PanelOfRecommendation | static/insights.js:176-201 | Whatever the backend recommends is shown, with a note exactly when it reported an error, and that note is the error |
| Classify.TickerBadgeSpec | static/insights.js:165-174 | A ticker badge shows exactly for the tickers the backend would look up, less blank ones, in upper case; PRIVATE and UNKNOWN show "Private"; anything else, "N/A" included, hides the badge |
| Classify.StockSectionSpec | static/insights.js:206-256 | Stock data shows the vitals; without it a badge-bearing ticker shows the stock error or "unavailable", a private one the private notice, and "N/A" the "unavailable" notice |

## Left out

- Rendering, the DOM, the camera, `html2canvas`, the article modal, the theme and the reset of all settings: they only display state or are not part of this core.
- Timers and interleaving: each asynchronous handler is two steps, and a response is an input. The model does not capture a second handler running between the two steps, nor the 13-second pause of the loading loop.
- Browser storage and JSON: the stored values are fields (`savedCountry`, `savedKeywords`, `saved`). Reading them back when the page loads is left out.
- Case mapping and the digit tests of `int()` and the rating pattern use ASCII letters and digits only. Python's Unicode digits and `re.IGNORECASE` on non-ASCII letters are not modelled. The whitespace sets of JavaScript's `trim()` and Python's `str.isspace` are modelled exactly.
- String lengths are counted in characters, not UTF-16 code units. This matters only for the 2-to-70 check on names outside the Basic Multilingual Plane.
- `null` message fields are read as missing, like the code's truthiness tests read them.
- A response member whose value is not a string (a number, an object) is kept only as a key, so it still counts for the empty-object test, but reading it gives "". A truthy non-string `error` or `detail` is therefore read as absent.
- Backend.GetNews: the request to the news provider is an input (`Provider`), and the provider's article objects are taken as already decoded.
- Floats and the number formatting of the stock vitals (`formatStockValue`, the arrows and colours) are left out.
- The model's prompts and the other regular expressions of the summary (summary, GenZ and impact sections) are left out. So are the ticker extraction of `get_ticker_from_gemini` and the logo URL built from the domain.
- Insights.Watchlist.SaveChanges: the `loadWatchedCompaniesWithDelay` call that ends the handler is `LoadWatched`, which a caller runs next. The closing of the modal is rendering.

Behaviour of the code that the model keeps even where it may surprise:

- The loading flags are shared by the local and global feeds. A reset of one feed blocks a reset of the other while it is in flight.
- An ok response that adds no article still advances the page when the reported total exceeds what is loaded (`DashboardState.PagingScenario`).
- The save of the watchlist builds its table with `new Map`, so of two entries with the same lower-cased name the later one is reused (`Insights.NameIndexLastWins`).
- A ticker of "N/A" hides the badge but still gets the "Stock data currently unavailable." notice (`Classify.StockSectionSpec`).
- `applyNewsFilter` refilters the global feed on every tab other than the local one, including the insights and settings tabs.
- Saving keywords or a country that changes the feed of the shown tab empties that feed first. If a reset is already in flight, `fetchNews` then returns at once, so the feed stays empty until that reset completes (`DashboardState.SaveKeywordsSpec`, `DashboardState.SaveCountrySpec`).
- `FMP_API_KEY` is the literal text of an expression, not the environment variable, so the missing-key return of the stock lookup is never taken (`Backend.RouteStockGate`).
