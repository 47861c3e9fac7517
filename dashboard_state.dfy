/**
 * The client state of the news dashboard as a value, and the effect of
 * each dashboard handler on it. Asynchronous handlers are split at their
 * `await`: a Begin function (guard, state reset, the request it sends) and
 * a Finish function (what the response does to the state at that time).
 */
module DashboardState {
  import opened Wrappers
  import opened Text
  import opened News
  import Keywords

  datatype Tab = LocalTab | GlobalTab | InsightsTab | SettingsTab

  /** The tab that shows a collection. */
  function TabOf(k: Kind): Tab {
    match k
    case LocalNews => LocalTab
    case GlobalNews => GlobalTab
  }

  const ArticlesPerPage := 20
  const LoadingCountry := "Loading..."
  const DefaultCountry := "US (Default)"
  /** The width from which the chat lives in the sidebar instead of a floating panel. */
  const LargeScreenWidth := 1024

  datatype ChatMessage = ChatMessage(id: string, text: string, isBot: bool)

  /**
   * The `state` record. `savedCountry` and `savedKeywords` are the
   * browser-storage entries the handlers write (None: no entry).
   */
  datatype DashState = DashState(
    activeTab: Tab,
    localFeed: Feed,
    globalFeed: Feed,
    isLoading: bool,
    isLoadingMore: bool,
    chatMessages: seq<ChatMessage>,
    isChatLoading: bool,
    error: Option<string>,
    chatError: Option<string>,
    detectedCountry: string,
    searchTerm: string,
    userSelectedCountry: Option<string>,
    globalUserKeywords: seq<string>,
    isChatPanelOpenMobile: bool,
    savedCountry: Option<string>,
    savedKeywords: Option<seq<string>>)
  {
    function FeedOf(k: Kind): Feed {
      match k
      case LocalNews => localFeed
      case GlobalNews => globalFeed
    }

    function WithFeed(k: Kind, f: Feed): DashState {
      match k
      case LocalNews => this.(localFeed := f)
      case GlobalNews => this.(globalFeed := f)
    }
  }

  function EmptyFeed(): Feed {
    Feed([], [], 1, 0)
  }

  /** The state before any handler has run. */
  function Initial(): DashState {
    DashState(LocalTab, EmptyFeed(), EmptyFeed(), false, false, [], false, None, None,
              LoadingCountry, "", None, [], false, None, None)
  }

  /** Every article held in either collection or view passed the ingestion filter. */
  predicate Valid(s: DashState) {
    FeedValid(s.localFeed) && FeedValid(s.globalFeed)
  }

  /** The state with both search views set aside. */
  function Core(s: DashState): DashState {
    s.(localFeed := s.localFeed.(filtered := []), globalFeed := s.globalFeed.(filtered := []))
  }

  lemma InitialValid()
    ensures Valid(Initial())
    ensures !Initial().isLoading && !Initial().isLoadingMore
  {
  }

  /** A request to `/api/news`: its query parameters. */
  datatype NewsRequest = NewsRequest(kind: Kind, page: int, pageSize: int, country: Option<string>, userKeywords: Option<string>)

  /** The request for a page of a collection, with the country or the keyword query that applies. */
  function RequestFor(s: DashState, k: Kind, page: int): NewsRequest {
    NewsRequest(
      k, page, ArticlesPerPage,
      if k == LocalNews && s.userSelectedCountry.Some? && s.userSelectedCountry.value != "" then s.userSelectedCountry else None,
      if k == GlobalNews && |s.globalUserKeywords| > 0 then Some(Join(s.globalUserKeywords, " OR ")) else None)
  }

  /** A handler's new state and the news request it sends, if any. */
  datatype Step = Step(state: DashState, request: Option<NewsRequest>)

  /** The loading flags are shared by the two collections. */
  predicate FetchBlocked(s: DashState, more: bool) {
    if more then s.isLoadingMore else s.isLoading
  }

  /** `fetchNews` up to its request: a reset empties the collection and asks for page 1. */
  function BeginFetch(s: DashState, k: Kind, more: bool): Step {
    if FetchBlocked(s, more) then Step(s, None)
    else if more then Step(s.(isLoadingMore := true), Some(RequestFor(s, k, s.FeedOf(k).page)))
    else Step(s.(isLoading := true, error := None).WithFeed(k, EmptyFeed()), Some(RequestFor(s, k, 1)))
  }

  /** `applyNewsFilter`: recompute the view of the local collection on the local tab, else of the global one. */
  function FilterActive(s: DashState): DashState {
    var key := SearchKey(s.searchTerm);
    if s.activeTab == LocalTab then s.(localFeed := s.localFeed.(filtered := FilterView(s.localFeed.items, key)))
    else s.(globalFeed := s.globalFeed.(filtered := FilterView(s.globalFeed.items, key)))
  }

  lemma FilterActiveLocal(s: DashState, view: seq<Article>)
    requires s.activeTab == LocalTab && view == FilterView(s.localFeed.items, SearchKey(s.searchTerm))
    ensures FilterActive(s) == s.(localFeed := s.localFeed.(filtered := view))
  {
  }

  lemma FilterActiveGlobal(s: DashState, view: seq<Article>)
    requires s.activeTab != LocalTab && view == FilterView(s.globalFeed.items, SearchKey(s.searchTerm))
    ensures FilterActive(s) == s.(globalFeed := s.globalFeed.(filtered := view))
  {
  }

  /** The collection after an ok response: keep its valid articles, record the total, move the page. */
  function Ingest(f: Feed, more: bool, articles: seq<Article>, totalResults: int): Feed {
    var valid := ValidArticles(articles);
    var items := if more then f.items + valid else valid;
    Feed(items, f.filtered, NextPage(f.page, |valid|, totalResults, |items|), totalResults)
  }

  /** The `try` block of `fetchNews`: ingest an ok response and refresh the view, else record the error. */
  function Absorb(s: DashState, k: Kind, more: bool, resp: NewsResponse): DashState {
    if resp.IsOk() then FilterActive(s.WithFeed(k, Ingest(s.FeedOf(k), more, resp.articles.value, resp.totalResults)))
    else s.(error := Some(NewsErrorMessage(k, resp)))
  }

  /** The `finally` block of `fetchNews`: clear the flag, and refresh the view after a reset of the shown tab. */
  function Settle(s: DashState, k: Kind, more: bool): DashState {
    if more then s.(isLoadingMore := false)
    else if s.activeTab == TabOf(k) then FilterActive(s.(isLoading := false))
    else s.(isLoading := false)
  }

  /** `fetchNews` after its request. */
  function FinishFetch(s: DashState, k: Kind, more: bool, resp: NewsResponse): DashState {
    Settle(Absorb(s, k, more, resp), k, more)
  }

  /** `handleSearchInput`. */
  function Search(s: DashState, value: string): DashState {
    FilterActive(s.(searchTerm := value))
  }

  /** Empty a collection's articles, view and page, then start a reset fetch of it. */
  function Refetch(s: DashState, k: Kind): Step {
    var f := s.FeedOf(k);
    BeginFetch(s.WithFeed(k, f.(items := [], page := 1, filtered := [])), k, false)
  }

  /** The country the local feed is for: the user's choice, else the detected one. */
  function EffectiveCountry(s: DashState): string {
    if s.userSelectedCountry.Some? && s.userSelectedCountry.value != "" then s.userSelectedCountry.value
    else s.detectedCountry
  }

  /** `saveCountryOverride`: an empty choice clears the override. */
  function SaveCountry(s: DashState, code: Option<string>): Step {
    var choice := if code.None? || code.value == "" then None else code;
    var s1 := s.(userSelectedCountry := choice, savedCountry := choice);
    if s.activeTab == LocalTab && EffectiveCountry(s1) != EffectiveCountry(s) && EffectiveCountry(s1) != LoadingCountry then
      Refetch(s1, LocalNews)
    else Step(s1, None)
  }

  /** `saveGlobalKeywords`: normalise, store, and refetch the global tab when the keyword set changed. */
  function SaveKeywords(s: DashState, input: string): Step {
    var kws := Keywords.Normalize(input);
    var s1 := s.(globalUserKeywords := kws, savedKeywords := Some(kws));
    if s.activeTab == GlobalTab && Keywords.KeywordsChanged(s.globalUserKeywords, kws) then
      Refetch(s1, GlobalNews)
    else Step(s1, None)
  }

  /** `sendMessage` is a no-op for a blank message or while a reply is awaited. */
  predicate SendAccepted(s: DashState, input: string) {
    !IsBlank(input, JsSpaces) && !s.isChatLoading
  }

  /** `sendMessage` up to its request: the trimmed message is posted to the conversation. */
  function BeginSend(s: DashState, input: string, id: string): DashState {
    if !SendAccepted(s, input) then s
    else s.(chatError := None, chatMessages := s.chatMessages + [ChatMessage(id, Trim(input, JsSpaces), false)], isChatLoading := true)
  }

  /** What `/api/chat` gives the browser: a decoded body ("" for a missing field), or a failure. */
  datatype ChatResponse = ChatReply(response: string, error: string) | ChatFailure

  const UnexpectedReply := "Received an unexpected response from the bot."
  const ConnectionFailed := "Failed to connect to the chatbot server."
  const ConnectionApology := "Sorry, I am unable to respond right now. (Connection Error)"

  /** The bot message appended for a response. */
  function BotText(resp: ChatResponse): string {
    match resp
    case ChatReply(response, error) =>
      if response != "" then response
      else if error != "" then "Error: " + error
      else UnexpectedReply
    case ChatFailure => ConnectionApology
  }

  /** The chat error recorded for a response, None for a reply. */
  function ChatErrorFor(resp: ChatResponse): Option<string> {
    match resp
    case ChatReply(response, error) =>
      if response != "" then None
      else if error != "" then Some(error)
      else Some(UnexpectedReply)
    case ChatFailure => Some(ConnectionFailed)
  }

  /** `sendMessage` after its request. */
  function FinishSend(s: DashState, resp: ChatResponse, id: string): DashState {
    s.(isChatLoading := false,
       chatError := if ChatErrorFor(resp).Some? then ChatErrorFor(resp) else s.chatError,
       chatMessages := s.chatMessages + [ChatMessage(id, BotText(resp), true)])
  }

  /** `handleResize`: a large screen closes the floating chat panel. */
  function Resize(s: DashState, width: int): DashState {
    if width >= LargeScreenWidth && s.isChatPanelOpenMobile then s.(isChatPanelOpenMobile := false) else s
  }

  /** `fetchDetectedCountry` looks the country up only while it is unknown. */
  predicate NeedsCountryLookup(s: DashState) {
    s.detectedCountry == LoadingCountry || s.detectedCountry == "N/A" || s.detectedCountry == "Error"
  }

  /** `fetchDetectedCountry` after its request: reached or not. */
  function FinishCountryLookup(s: DashState, reached: bool): DashState {
    s.(detectedCountry :=
         if !reached then "N/A"
         else if s.userSelectedCountry.Some? && s.userSelectedCountry.value != "" then s.userSelectedCountry.value
         else DefaultCountry)
  }

  /**
   * A lookup that reached the server leaves the country known, unless the
   * stored choice is itself one of the placeholders; one that failed
   * leaves "N/A", so the next visit to the settings tab asks again.
   * Nothing but the detected country changes.
   */
  lemma FinishCountryLookupSpec(s: DashState, reached: bool)
    ensures var t := FinishCountryLookup(s, reached);
      && t == s.(detectedCountry := t.detectedCountry)
      && (!reached ==> NeedsCountryLookup(t))
      && (reached ==> (NeedsCountryLookup(t) <==>
            s.userSelectedCountry.Some? && s.userSelectedCountry.value in {LoadingCountry, "N/A", "Error"}))
  {
  }

  /** A tab click: new state, the news request sent, and whether the country lookup starts. */
  datatype TabStep = TabStep(state: DashState, request: Option<NewsRequest>, lookupCountry: bool)

  /** Open a news tab: refetch when empty, newly entered or in error, else refresh the view. */
  function EnterNewsTab(s: DashState, prev: Tab, k: Kind): TabStep {
    if |s.FeedOf(k).items| == 0 || prev != TabOf(k) || s.error.Some? then
      var step := BeginFetch(s, k, false);
      TabStep(step.state, step.request, false)
    else TabStep(FilterActive(s), None, false)
  }

  /** The first part of `handleTabClick`: activate the tab, place the chat, and clear search and error on a change. */
  function Arrive(s: DashState, tab: Tab, width: int): DashState {
    var s1 := s.(activeTab := tab);
    var s2 := if tab == SettingsTab then s1.(isChatPanelOpenMobile := false) else Resize(s1, width);
    if s.activeTab != tab then s2.(searchTerm := "", error := None) else s2
  }

  /** `handleTabClick` on a screen `width` pixels wide. */
  function ClickTab(s: DashState, tab: Tab, width: int): TabStep {
    var s1 := Arrive(s, tab, width);
    match tab
    case LocalTab => EnterNewsTab(s1, s.activeTab, LocalNews)
    case GlobalTab => EnterNewsTab(s1, s.activeTab, GlobalNews)
    case InsightsTab => TabStep(s1, None, false)
    case SettingsTab => TabStep(s1, None, NeedsCountryLookup(s1))
  }

  /** The "Load more" button of a collection. */
  predicate LoadMoreShown(s: DashState, k: Kind) {
    LoadMoreVisible(s.FeedOf(k), s.searchTerm)
  }

  // ----- Properties -----

  /** A fetch already in flight of the same kind turns a new one into a no-op. */
  lemma BeginFetchSpec(s: DashState, k: Kind, more: bool)
    ensures FetchBlocked(s, more) ==> BeginFetch(s, k, more) == Step(s, None)
    ensures !FetchBlocked(s, more) ==>
      var step := BeginFetch(s, k, more);
      && step.request.Some?
      && step.request.value.kind == k
      && step.request.value.pageSize == ArticlesPerPage
      && step.request.value.page == (if more then s.FeedOf(k).page else 1)
      && (more ==> step.state == s.(isLoadingMore := true))
      && (!more ==> step.state == s.(isLoading := true, error := None).WithFeed(k, EmptyFeed()))
      && (!more ==> step.state.FeedOf(k) == EmptyFeed() && step.state.isLoading && step.state.error.None?)
    ensures Valid(s) ==> Valid(BeginFetch(s, k, more).state)
  {
  }

  lemma BeginFetchValid(s: DashState, k: Kind, more: bool)
    requires Valid(s)
    ensures Valid(BeginFetch(s, k, more).state)
  {
  }

  lemma FilterActiveValid(s: DashState)
    requires Valid(s)
    ensures Valid(FilterActive(s))
  {
    var key := SearchKey(s.searchTerm);
    if s.activeTab == LocalTab {
      var view := FilterView(s.localFeed.items, key);
      FilterViewValid(s.localFeed.items, key);
      FilterActiveLocal(s, view);
    } else {
      var view := FilterView(s.globalFeed.items, key);
      FilterViewValid(s.globalFeed.items, key);
      FilterActiveGlobal(s, view);
    }
  }

  /** The query carries the chosen country for local news and the keywords, joined by " OR ", for global news. */
  lemma RequestForSpec(s: DashState, k: Kind, page: int)
    ensures RequestFor(s, k, page).country.Some? <==> k == LocalNews && s.userSelectedCountry.Some? && s.userSelectedCountry.value != ""
    ensures RequestFor(s, k, page).userKeywords.Some? <==> k == GlobalNews && |s.globalUserKeywords| > 0
    ensures RequestFor(s, k, page).userKeywords.Some? ==> RequestFor(s, k, page).userKeywords.value == Join(s.globalUserKeywords, " OR ")
  {
  }

  /** The view is recomputed for the active tab's collection only; the collections themselves are untouched. */
  lemma FilterActiveSpec(s: DashState)
    ensures FilterActive(s).localFeed.items == s.localFeed.items && FilterActive(s).globalFeed.items == s.globalFeed.items
    ensures s.activeTab == LocalTab ==>
      FilterActive(s).globalFeed == s.globalFeed && FilterActive(s).localFeed.filtered == FilterView(s.localFeed.items, SearchKey(s.searchTerm))
    ensures s.activeTab != LocalTab ==>
      FilterActive(s).localFeed == s.localFeed && FilterActive(s).globalFeed.filtered == FilterView(s.globalFeed.items, SearchKey(s.searchTerm))
    ensures FilterActive(FilterActive(s)) == FilterActive(s)
    ensures Core(FilterActive(s)) == Core(s)
    ensures Valid(s) ==> Valid(FilterActive(s))
  {
    FilterViewWithin(s.localFeed.items, SearchKey(s.searchTerm));
    FilterViewWithin(s.globalFeed.items, SearchKey(s.searchTerm));
  }

  /**
   * Typing a search term: a blank term shows the whole collection, else
   * exactly the articles of the collection that match the term.
   */
  lemma SearchSpec(s: DashState, value: string)
    ensures var f := Search(s, value).FeedOf(if s.activeTab == LocalTab then LocalNews else GlobalNews);
      && f.items == s.FeedOf(if s.activeTab == LocalTab then LocalNews else GlobalNews).items
      && (IsBlank(value, JsSpaces) ==> f.filtered == f.items)
      && (!IsBlank(value, JsSpaces) ==> forall a :: a in f.filtered <==> a in f.items && Matches(a, SearchKey(value)))
  {
    SearchKeyEmptyIff(value);
    var k := if s.activeTab == LocalTab then LocalNews else GlobalNews;
    FilterMatchingSpec(s.FeedOf(k).items, SearchKey(value));
  }

  /** The `try` block changes the fetched collection or the error, and refreshes the shown view. */
  lemma AbsorbSpec(s: DashState, k: Kind, more: bool, resp: NewsResponse)
    ensures Core(Absorb(s, k, more, resp)) ==
      Core(if resp.IsOk() then s.WithFeed(k, Ingest(s.FeedOf(k), more, resp.articles.value, resp.totalResults))
           else s.(error := Some(NewsErrorMessage(k, resp))))
    ensures resp.IsOk() && s.activeTab == TabOf(k) ==>
      Absorb(s, k, more, resp).FeedOf(k).filtered == FilterView(Absorb(s, k, more, resp).FeedOf(k).items, SearchKey(s.searchTerm))
  {
    if resp.IsOk() {
      FilterActiveSpec(s.WithFeed(k, Ingest(s.FeedOf(k), more, resp.articles.value, resp.totalResults)));
    }
  }

  /** Ingesting a response only ever adds valid articles. */
  lemma IngestValid(f: Feed, more: bool, articles: seq<Article>, totalResults: int)
    requires FeedValid(f)
    ensures FeedValid(Ingest(f, more, articles, totalResults))
  {
    ValidArticlesSpec(articles);
    if more {
      AllValidAppend(f.items, ValidArticles(articles));
    }
  }

  lemma AbsorbValid(s: DashState, k: Kind, more: bool, resp: NewsResponse)
    requires Valid(s)
    ensures Valid(Absorb(s, k, more, resp))
  {
    if resp.IsOk() {
      IngestValid(s.FeedOf(k), more, resp.articles.value, resp.totalResults);
      FilterActiveSpec(s.WithFeed(k, Ingest(s.FeedOf(k), more, resp.articles.value, resp.totalResults)));
    }
  }

  /** The `finally` block only clears the flag and, after a reset of the shown tab, refreshes its view. */
  lemma SettleSpec(s: DashState, k: Kind, more: bool)
    ensures Core(Settle(s, k, more)) == Core(if more then s.(isLoadingMore := false) else s.(isLoading := false))
    ensures more ==> Settle(s, k, more) == s.(isLoadingMore := false)
    ensures !more && s.activeTab == TabOf(k) ==>
      Settle(s, k, more).FeedOf(k).filtered == FilterView(s.FeedOf(k).items, SearchKey(s.searchTerm))
    ensures Valid(s) ==> Valid(Settle(s, k, more))
  {
    FilterActiveSpec(s.(isLoading := false));
  }

  /**
   * The loading flag of the completed fetch's kind is cleared and the
   * other kind's flag is left alone.
   */
  lemma FinishFetchClearsFlag(s: DashState, k: Kind, more: bool, resp: NewsResponse)
    ensures var t := FinishFetch(s, k, more, resp);
      && (more ==> !t.isLoadingMore && t.isLoading == s.isLoading)
      && (!more ==> !t.isLoading && t.isLoadingMore == s.isLoadingMore)
      && t.activeTab == s.activeTab && t.searchTerm == s.searchTerm
  {
    AbsorbSpec(s, k, more, resp);
    var s1 := Absorb(s, k, more, resp);
    SettleSpec(s1, k, more);
    var t := FinishFetch(s, k, more, resp);
    assert Core(s1).activeTab == s1.activeTab;
    assert Core(t).activeTab == t.activeTab;
  }

  /**
   * An ok response replaces (reset) or extends (load more) the collection
   * with its valid articles, records the total, and moves the page on
   * exactly when it brought a valid article or the total exceeds what is
   * now loaded; the other collection keeps its articles, page and total.
   */
  lemma FinishFetchOk(s: DashState, k: Kind, more: bool, resp: NewsResponse)
    requires resp.IsOk()
    ensures var t := FinishFetch(s, k, more, resp);
      var valid := ValidArticles(resp.articles.value);
      && t.FeedOf(k).items == (if more then s.FeedOf(k).items + valid else valid)
      && t.FeedOf(k).total == resp.totalResults
      && (t.FeedOf(k).page == s.FeedOf(k).page + 1 <==> |valid| > 0 || resp.totalResults > |t.FeedOf(k).items|)
      && (t.FeedOf(k).page == s.FeedOf(k).page <==> !(|valid| > 0 || resp.totalResults > |t.FeedOf(k).items|))
      && t.error == s.error
    ensures var t := FinishFetch(s, k, more, resp);
      var other := if k == LocalNews then GlobalNews else LocalNews;
      && t.FeedOf(other).items == s.FeedOf(other).items
      && t.FeedOf(other).page == s.FeedOf(other).page
      && t.FeedOf(other).total == s.FeedOf(other).total
  {
    AbsorbSpec(s, k, more, resp);
    var s1 := Absorb(s, k, more, resp);
    SettleSpec(s1, k, more);
    var t := FinishFetch(s, k, more, resp);
    var s0 := s.WithFeed(k, Ingest(s.FeedOf(k), more, resp.articles.value, resp.totalResults));
    assert Core(t) == Core(s0).(isLoading := if more then s.isLoading else false, isLoadingMore := if more then false else s.isLoadingMore);
  }

  /**
   * Any other response records a non-empty error and leaves both
   * collections' articles, pages and totals as they were.
   */
  lemma FinishFetchFailure(s: DashState, k: Kind, more: bool, resp: NewsResponse)
    requires !resp.IsOk()
    ensures var t := FinishFetch(s, k, more, resp);
      && t.error == Some(NewsErrorMessage(k, resp))
      && t.error.value != ""
      && t.localFeed.items == s.localFeed.items && t.globalFeed.items == s.globalFeed.items
      && t.localFeed.page == s.localFeed.page && t.globalFeed.page == s.globalFeed.page
      && t.localFeed.total == s.localFeed.total && t.globalFeed.total == s.globalFeed.total
  {
    AbsorbSpec(s, k, more, resp);
    var s1 := Absorb(s, k, more, resp);
    SettleSpec(s1, k, more);
    var t := FinishFetch(s, k, more, resp);
    var s0 := s.(error := Some(NewsErrorMessage(k, resp)));
    assert Core(t) == Core(s0).(isLoading := if more then s.isLoading else false, isLoadingMore := if more then false else s.isLoadingMore);
  }

  /** After a reset, or any ok response, shown on its own tab, the view matches the collection and the search. */
  lemma FinishFetchRefreshesView(s: DashState, k: Kind, more: bool, resp: NewsResponse)
    requires s.activeTab == TabOf(k)
    requires resp.IsOk() || !more
    ensures var t := FinishFetch(s, k, more, resp);
      t.FeedOf(k).filtered == FilterView(t.FeedOf(k).items, SearchKey(t.searchTerm))
  {
    AbsorbSpec(s, k, more, resp);
    var s1 := Absorb(s, k, more, resp);
    SettleSpec(s1, k, more);
    FinishFetchClearsFlag(s, k, more, resp);
    var t := FinishFetch(s, k, more, resp);
    assert Core(s1).activeTab == s1.activeTab && Core(s1).searchTerm == s1.searchTerm;
    assert Core(t).FeedOf(k).items == Core(s1).FeedOf(k).items by {
      assert Core(t) == Core(s1).(isLoading := t.isLoading, isLoadingMore := t.isLoadingMore);
    }
  }

  /** A load more appends: the articles already shown stay first and in order. */
  lemma LoadMoreKeepsPrefix(s: DashState, k: Kind, resp: NewsResponse)
    ensures var t := FinishFetch(s, k, true, resp);
      && |s.FeedOf(k).items| <= |t.FeedOf(k).items|
      && t.FeedOf(k).items[..|s.FeedOf(k).items|] == s.FeedOf(k).items
  {
    if resp.IsOk() {
      FinishFetchOk(s, k, true, resp);
    } else {
      FinishFetchFailure(s, k, true, resp);
    }
  }

  /** Only articles that passed the ingestion filter ever enter a collection or a view. */
  lemma FinishFetchKeepsValid(s: DashState, k: Kind, more: bool, resp: NewsResponse)
    requires Valid(s)
    ensures Valid(FinishFetch(s, k, more, resp))
  {
    AbsorbValid(s, k, more, resp);
    SettleSpec(Absorb(s, k, more, resp), k, more);
  }

  /**
   * The "Load more" button, when shown after an ok response, never asks
   * again for the page just received: the page counter has advanced.
   */
  lemma LoadMoreShownOnlyAfterAdvance(s: DashState, k: Kind, more: bool, resp: NewsResponse)
    requires resp.IsOk()
    requires LoadMoreShown(FinishFetch(s, k, more, resp), k)
    ensures FinishFetch(s, k, more, resp).FeedOf(k).page == s.FeedOf(k).page + 1
  {
    FinishFetchOk(s, k, more, resp);
  }

  /** A search hides "Load more" whatever the collection holds. */
  lemma SearchHidesLoadMore(s: DashState, k: Kind)
    requires !IsBlank(s.searchTerm, JsSpaces)
    ensures !LoadMoreShown(s, k)
  {
  }

  /**
   * Two articles out of five on the first page: the page moves to 2 and
   * "Load more" is offered. An empty next page with the same total still
   * moves the page on, to 3, and keeps offering "Load more".
   */
  lemma PagingScenario(s: DashState, a1: Article, a2: Article)
    requires IsValidArticle(a1) && IsValidArticle(a2)
    requires s.activeTab == LocalTab && s.searchTerm == "" && !s.isLoading && !s.isLoadingMore
    ensures var s1 := BeginFetch(s, LocalNews, false).state;
      var s2 := FinishFetch(s1, LocalNews, false, NewsReply("ok", Some([a1, a2]), 5, ""));
      && s2.localFeed.items == [a1, a2]
      && s2.localFeed.page == 2
      && LoadMoreShown(s2, LocalNews)
      && var s3 := BeginFetch(s2, LocalNews, true);
         && s3.request.value.page == 2
         && var s4 := FinishFetch(s3.state, LocalNews, true, NewsReply("ok", Some([]), 5, ""));
            && s4.localFeed.items == [a1, a2]
            && s4.localFeed.page == 3
            && LoadMoreShown(s4, LocalNews)
  {
    assert ValidArticles([a1, a2]) == [a1, a2] by {
      assert [a1, a2][1..] == [a2];
      assert ValidArticles([a2]) == [a2] by { assert [a2][1..] == []; }
    }
    var r1 := NewsReply("ok", Some([a1, a2]), 5, "");
    var r2 := NewsReply("ok", Some([]), 5, "");
    BeginFetchSpec(s, LocalNews, false);
    var s1 := BeginFetch(s, LocalNews, false).state;
    assert s1.isLoadingMore == s.isLoadingMore && s1.searchTerm == s.searchTerm;
    FinishFetchOk(s1, LocalNews, false, r1);
    FinishFetchClearsFlag(s1, LocalNews, false, r1);
    var s2 := FinishFetch(s1, LocalNews, false, r1);
    assert s2.localFeed.page == 2;
    BeginFetchSpec(s2, LocalNews, true);
    var s3 := BeginFetch(s2, LocalNews, true);
    assert s3.state == s2.(isLoadingMore := true);
    FinishFetchOk(s3.state, LocalNews, true, r2);
    FinishFetchClearsFlag(s3.state, LocalNews, true, r2);
    var s4 := FinishFetch(s3.state, LocalNews, true, r2);
    assert s4.localFeed.items == [a1, a2] + [];
  }

  /** A refused send changes nothing; an accepted one posts the trimmed message and waits. */
  lemma BeginSendSpec(s: DashState, input: string, id: string)
    ensures !SendAccepted(s, input) ==> BeginSend(s, input, id) == s
    ensures SendAccepted(s, input) ==>
      && BeginSend(s, input, id).isChatLoading
      && BeginSend(s, input, id).chatError.None?
      && BeginSend(s, input, id).chatMessages == s.chatMessages + [ChatMessage(id, Trim(input, JsSpaces), false)]
      && Trim(input, JsSpaces) != ""
    ensures SendAccepted(s, input) ==>
      BeginSend(s, input, id) ==
        s.(chatError := None, chatMessages := s.chatMessages + [ChatMessage(id, Trim(input, JsSpaces), false)], isChatLoading := true)
  {
  }

  /**
   * A full exchange appends the user's trimmed message and one non-empty
   * bot message, and ends the wait; the chat error is set
   * exactly when the response is not a reply with text.
   */
  lemma ExchangeSpec(s: DashState, input: string, resp: ChatResponse, id1: string, id2: string)
    requires SendAccepted(s, input)
    ensures var t := FinishSend(BeginSend(s, input, id1), resp, id2);
      && t.chatMessages == s.chatMessages + [ChatMessage(id1, Trim(input, JsSpaces), false), ChatMessage(id2, BotText(resp), true)]
      && !t.isChatLoading
      && BotText(resp) != ""
      && (t.chatError.None? <==> resp.ChatReply? && resp.response != "")
      && Valid(s) == Valid(t)
    ensures var t := FinishSend(BeginSend(s, input, id1), resp, id2);
      t == s.(chatMessages := s.chatMessages + [ChatMessage(id1, Trim(input, JsSpaces), false), ChatMessage(id2, BotText(resp), true)],
              isChatLoading := false, chatError := ChatErrorFor(resp))
  {
  }

  /**
   * Saving keywords stores their normal form; the global tab is refetched
   * from page 1 only when the SET of keywords changed and no reset is in
   * flight, whatever the order or repetition of the typed keywords. A
   * change on the global tab empties that feed (keeping its total) even
   * when a reset in flight stops the refetch; nothing else changes.
   */
  lemma SaveKeywordsSpec(s: DashState, input: string)
    ensures var step := SaveKeywords(s, input);
      && step.state.globalUserKeywords == Keywords.Normalize(input)
      && step.state.savedKeywords == Some(Keywords.Normalize(input))
    ensures var step := SaveKeywords(s, input);
      step.request.Some? <==>
        s.activeTab == GlobalTab && multiset(s.globalUserKeywords) != multiset(Keywords.Normalize(input)) && !s.isLoading
    ensures var step := SaveKeywords(s, input);
      step.request.Some? ==>
        && step.request.value == RequestFor(step.state, GlobalNews, 1)
        && step.state.globalFeed == EmptyFeed()
    ensures var step := SaveKeywords(s, input);
      var kws := Keywords.Normalize(input);
      var stored := s.(globalUserKeywords := kws, savedKeywords := Some(kws));
      var cleared := s.globalFeed.(items := [], page := 1, filtered := []);
      var changed := s.activeTab == GlobalTab && multiset(s.globalUserKeywords) != multiset(kws);
      && (step.request.Some? ==> step.state == stored.(isLoading := true, error := None, globalFeed := EmptyFeed()))
      && (step.request.None? && changed ==> step.state == stored.(globalFeed := cleared))
      && (!changed ==> step.state == stored)
    ensures Valid(s) ==> Valid(SaveKeywords(s, input).state)
  {
    var kws := Keywords.Normalize(input);
    Keywords.KeywordsChangedIff(s.globalUserKeywords, kws);
    var s1 := s.(globalUserKeywords := kws, savedKeywords := Some(kws));
    if s.activeTab == GlobalTab && Keywords.KeywordsChanged(s.globalUserKeywords, kws) {
      var s2 := s1.(globalFeed := s1.globalFeed.(items := [], page := 1, filtered := []));
      BeginFetchSpec(s2, GlobalNews, false);
      assert SaveKeywords(s, input) == Refetch(s1, GlobalNews) == BeginFetch(s2, GlobalNews, false);
    } else {
      assert SaveKeywords(s, input) == Step(s1, None);
    }
  }

  /**
   * Choosing a country stores it (an empty choice clears it); the local
   * tab is refetched exactly when the effective country changes to a
   * known value and no reset is in flight, and the request names the choice.
   * Such a change empties the local feed (keeping its total) even when a
   * reset in flight stops the refetch; nothing else changes.
   */
  lemma SaveCountrySpec(s: DashState, code: Option<string>)
    ensures var step := SaveCountry(s, code);
      && step.state.userSelectedCountry == step.state.savedCountry
      && (step.state.userSelectedCountry.None? <==> code.None? || code.value == "")
    ensures var step := SaveCountry(s, code);
      var chosen := step.state.userSelectedCountry;
      var now := if chosen.Some? then chosen.value else s.detectedCountry;
      step.request.Some? <==>
        s.activeTab == LocalTab && now != EffectiveCountry(s) && now != LoadingCountry && !s.isLoading
    ensures var step := SaveCountry(s, code);
      step.request.Some? ==> step.request.value.country == step.state.userSelectedCountry && step.request.value.page == 1
    ensures var step := SaveCountry(s, code);
      var choice := step.state.userSelectedCountry;
      var stored := s.(userSelectedCountry := choice, savedCountry := choice);
      var now := if choice.Some? then choice.value else s.detectedCountry;
      var cleared := s.localFeed.(items := [], page := 1, filtered := []);
      var changed := s.activeTab == LocalTab && now != EffectiveCountry(s) && now != LoadingCountry;
      && (step.request.Some? ==> step.state == stored.(isLoading := true, error := None, localFeed := EmptyFeed()))
      && (step.request.Some? ==> step.state.localFeed == EmptyFeed())
      && (step.request.None? && changed ==> step.state == stored.(localFeed := cleared))
      && (!changed ==> step.state == stored)
    ensures Valid(s) ==> Valid(SaveCountry(s, code).state)
  {
    var choice := if code.None? || code.value == "" then None else code;
    var s1 := s.(userSelectedCountry := choice, savedCountry := choice);
    if s.activeTab == LocalTab && EffectiveCountry(s1) != EffectiveCountry(s) && EffectiveCountry(s1) != LoadingCountry {
      var s2 := s1.(localFeed := s1.localFeed.(items := [], page := 1, filtered := []));
      BeginFetchSpec(s2, LocalNews, false);
      assert SaveCountry(s, code) == Refetch(s1, LocalNews) == BeginFetch(s2, LocalNews, false);
    } else {
      assert SaveCountry(s, code) == Step(s1, None);
    }
  }

  /**
   * Arriving on a tab activates it; entering another tab clears the search
   * and the error; the settings tab closes the chat panel, any other tab
   * recomputes it as a resize does. Nothing else changes: the articles and
   * all loading flags are untouched.
   */
  lemma ArriveSpec(s: DashState, tab: Tab, width: int)
    ensures Arrive(s, tab, width).activeTab == tab
    ensures s.activeTab != tab ==> Arrive(s, tab, width).searchTerm == "" && Arrive(s, tab, width).error.None?
    ensures s.activeTab == tab ==> Arrive(s, tab, width).searchTerm == s.searchTerm && Arrive(s, tab, width).error == s.error
    ensures tab == SettingsTab ==> !Arrive(s, tab, width).isChatPanelOpenMobile
    ensures Arrive(s, tab, width).localFeed == s.localFeed && Arrive(s, tab, width).globalFeed == s.globalFeed
    ensures Arrive(s, tab, width).isLoading == s.isLoading && Arrive(s, tab, width).detectedCountry == s.detectedCountry
    ensures Arrive(s, tab, width).isLoadingMore == s.isLoadingMore && Arrive(s, tab, width).isChatLoading == s.isChatLoading
    ensures tab != SettingsTab ==> Arrive(s, tab, width).isChatPanelOpenMobile == Resize(s, width).isChatPanelOpenMobile
    ensures var a := Arrive(s, tab, width);
      a == s.(activeTab := tab, isChatPanelOpenMobile := a.isChatPanelOpenMobile, searchTerm := a.searchTerm, error := a.error)
  {
  }

  /**
   * Clicking a news tab refetches it from page 1 exactly when it is
   * empty, newly entered or in error and no reset is in flight; otherwise
   * its view is refreshed. The country lookup is not started.
   */
  lemma ClickNewsTabSpec(s: DashState, k: Kind, width: int)
    ensures var step := ClickTab(s, TabOf(k), width);
      && step.state.activeTab == TabOf(k)
      && (step.request.Some? <==> !s.isLoading && (|s.FeedOf(k).items| == 0 || s.activeTab != TabOf(k) || s.error.Some?))
      && (step.request.Some? ==> step.request.value.kind == k && step.request.value.page == 1 && step.state.FeedOf(k) == EmptyFeed())
      && !step.lookupCountry
  {
    ArriveSpec(s, TabOf(k), width);
    var s1 := Arrive(s, TabOf(k), width);
    var step := ClickTab(s, TabOf(k), width);
    assert step == EnterNewsTab(s1, s.activeTab, k);
    assert s1.FeedOf(k) == s.FeedOf(k);
    if |s1.FeedOf(k).items| == 0 || s.activeTab != TabOf(k) || s1.error.Some? {
      BeginFetchSpec(s1, k, false);
      assert step.request == BeginFetch(s1, k, false).request;
    } else {
      assert step == TabStep(FilterActive(s1), None, false);
    }
  }

  /** No tab click lets an invalid article in. */
  lemma ClickTabValid(s: DashState, tab: Tab, width: int)
    requires Valid(s)
    ensures Valid(ClickTab(s, tab, width).state)
  {
    var s1 := Arrive(s, tab, width);
    ArriveValid(s, tab, width);
    match tab
    case LocalTab => EnterNewsTabValid(s1, s.activeTab, LocalNews);
    case GlobalTab => EnterNewsTabValid(s1, s.activeTab, GlobalNews);
    case InsightsTab =>
    case SettingsTab =>
  }

  lemma ArriveValid(s: DashState, tab: Tab, width: int)
    requires Valid(s)
    ensures Valid(Arrive(s, tab, width))
  {
  }

  lemma EnterNewsTabValid(s: DashState, prev: Tab, k: Kind)
    requires Valid(s)
    ensures Valid(EnterNewsTab(s, prev, k).state)
  {
    if |s.FeedOf(k).items| == 0 || prev != TabOf(k) || s.error.Some? {
      BeginFetchValid(s, k, false);
    } else {
      FilterActiveValid(s);
    }
  }

  /** The settings tab starts the country lookup only while the country is unknown, and sends no news request. */
  lemma ClickSettingsSpec(s: DashState, width: int)
    ensures var step := ClickTab(s, SettingsTab, width);
      && step.request.None?
      && (step.lookupCountry <==> NeedsCountryLookup(s))
      && !step.state.isChatPanelOpenMobile
      && step.state.localFeed == s.localFeed && step.state.globalFeed == s.globalFeed
  {
    ArriveSpec(s, SettingsTab, width);
  }

  /** A large screen never keeps the floating panel open, and resizing twice is resizing once. */
  lemma ResizeSpec(s: DashState, width: int)
    ensures width >= LargeScreenWidth ==> !Resize(s, width).isChatPanelOpenMobile
    ensures width < LargeScreenWidth ==> Resize(s, width) == s
    ensures Resize(s, width) == (if width >= LargeScreenWidth then s.(isChatPanelOpenMobile := false) else s)
    ensures Resize(Resize(s, width), width) == Resize(s, width)
  {
  }
}
