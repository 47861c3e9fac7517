/**
 * The news dashboard page: the mutable `state` record and the handlers
 * that update it in place. Every handler is proved to leave the state
 * that the matching function of `DashboardState` computes, and to keep
 * the invariant that only valid articles are ever held.
 */
module Dashboard {
  import opened Wrappers
  import opened Text
  import opened News
  import Keywords
  import opened DashboardState

  class Page {
    var activeTab: Tab
    var localNews: seq<Article>
    var globalNews: seq<Article>
    var isLoading: bool
    var isLoadingMore: bool
    var chatMessages: seq<ChatMessage>
    var isChatLoading: bool
    var error: Option<string>
    var chatError: Option<string>
    var detectedCountry: string
    var searchTerm: string
    var filteredLocalNews: seq<Article>
    var filteredGlobalNews: seq<Article>
    var localNewsPage: int
    var globalNewsPage: int
    var localNewsTotalResults: int
    var globalNewsTotalResults: int
    var userSelectedCountry: Option<string>
    var globalUserKeywords: seq<string>
    var isChatPanelOpenMobile: bool
    /** The browser-storage entries written by the settings handlers. */
    var savedCountry: Option<string>
    var savedKeywords: Option<seq<string>>

    /** The page's state as a value. */
    function Snapshot(): DashState
      reads this
    {
      DashState(
        activeTab,
        Feed(localNews, filteredLocalNews, localNewsPage, localNewsTotalResults),
        Feed(globalNews, filteredGlobalNews, globalNewsPage, globalNewsTotalResults),
        isLoading, isLoadingMore, chatMessages, isChatLoading, error, chatError,
        detectedCountry, searchTerm, userSelectedCountry, globalUserKeywords,
        isChatPanelOpenMobile, savedCountry, savedKeywords)
    }

    predicate Valid()
      reads this
    {
      DashboardState.Valid(Snapshot())
    }

    constructor ()
      ensures Snapshot() == Initial()
      ensures Valid()
    {
      activeTab := LocalTab;
      localNews, globalNews := [], [];
      isLoading, isLoadingMore := false, false;
      chatMessages := [];
      isChatLoading := false;
      error, chatError := None, None;
      detectedCountry := LoadingCountry;
      searchTerm := "";
      filteredLocalNews, filteredGlobalNews := [], [];
      localNewsPage, globalNewsPage := 1, 1;
      localNewsTotalResults, globalNewsTotalResults := 0, 0;
      userSelectedCountry := None;
      globalUserKeywords := [];
      isChatPanelOpenMobile := false;
      savedCountry, savedKeywords := None, None;
    }

    /** `applyNewsFilter`. */
    method ApplyNewsFilter()
      requires Valid()
      modifies this
      ensures Snapshot() == FilterActive(old(Snapshot()))
      ensures Valid()
    {
      FilterActiveValid(Snapshot());
      if activeTab == LocalTab {
        FilterLocalView();
      } else {
        FilterGlobalView();
      }
    }

    /** The view of a collection under the current search term. */
    method ViewOf(items: seq<Article>) returns (view: seq<Article>)
      ensures view == FilterView(items, SearchKey(searchTerm))
    {
      var term := SearchKey(searchTerm);
      view := if term == "" then items else FilterMatching(items, term);
    }

    /** `applyNewsFilter` on the local tab. */
    method FilterLocalView()
      requires activeTab == LocalTab
      modifies this
      ensures Snapshot() == FilterActive(old(Snapshot()))
    {
      ghost var s0 := Snapshot();
      var view := ViewOf(localNews);
      SetLocalView(view);
      FilterActiveLocal(s0, view);
    }

    /** `applyNewsFilter` on any other tab. */
    method FilterGlobalView()
      requires activeTab != LocalTab
      modifies this
      ensures Snapshot() == FilterActive(old(Snapshot()))
    {
      ghost var s0 := Snapshot();
      var view := ViewOf(globalNews);
      SetGlobalView(view);
      FilterActiveGlobal(s0, view);
    }

    method SetLocalView(view: seq<Article>)
      modifies this
      ensures Snapshot() == old(Snapshot()).(localFeed := old(Snapshot()).localFeed.(filtered := view))
    {
      filteredLocalNews := view;
    }

    method SetGlobalView(view: seq<Article>)
      modifies this
      ensures Snapshot() == old(Snapshot()).(globalFeed := old(Snapshot()).globalFeed.(filtered := view))
    {
      filteredGlobalNews := view;
    }

    /** The query parameters for a page of a collection. */
    method QueryFor(k: Kind, page: int) returns (r: NewsRequest)
      ensures r == RequestFor(Snapshot(), k, page)
    {
      var country := if k == LocalNews && userSelectedCountry.Some? && userSelectedCountry.value != "" then userSelectedCountry else None;
      var query := if k == GlobalNews && |globalUserKeywords| > 0 then Some(Join(globalUserKeywords, " OR ")) else None;
      r := NewsRequest(k, page, ArticlesPerPage, country, query);
    }

    /** `fetchNews` up to its request: the guard, the reset, and the query sent. */
    method BeginFetchNews(k: Kind, more: bool) returns (req: Option<NewsRequest>)
      requires Valid()
      modifies this
      ensures Step(Snapshot(), req) == BeginFetch(old(Snapshot()), k, more)
      ensures Valid()
    {
      BeginFetchValid(Snapshot(), k, more);
      if more && !isLoadingMore {
        var page := if k == LocalNews then localNewsPage else globalNewsPage;
        var r := QueryFor(k, page);
        isLoadingMore := true;
        req := Some(r);
      } else if !more && !isLoading {
        var r := QueryFor(k, 1);
        ResetFeed(k);
        req := Some(r);
      } else {
        req := None;
      }
    }

    /** The reset half of `fetchNews`: raise the flag, clear the error and empty the collection. */
    method ResetFeed(k: Kind)
      modifies this
      ensures Snapshot() == old(Snapshot()).(isLoading := true, error := None).WithFeed(k, EmptyFeed())
    {
      ghost var s0 := Snapshot();
      isLoading, error := true, None;
      assert Snapshot() == s0.(isLoading := true, error := None);
      SetFeed(k, EmptyFeed());
    }

    /** Write the four fields that hold one collection. */
    method SetFeed(k: Kind, f: Feed)
      modifies this
      ensures Snapshot() == old(Snapshot()).WithFeed(k, f)
    {
      if k == LocalNews {
        SetLocalFeed(f);
      } else {
        SetGlobalFeed(f);
      }
    }

    method SetLocalFeed(f: Feed)
      modifies this
      ensures Snapshot() == old(Snapshot()).(localFeed := f)
    {
      SetLocalArticles(f.items, f.filtered);
      SetLocalCounters(f.page, f.total);
    }

    method SetLocalArticles(items: seq<Article>, filtered: seq<Article>)
      modifies this
      ensures Snapshot() == old(Snapshot()).(localFeed := old(Snapshot()).localFeed.(items := items, filtered := filtered))
    {
      localNews, filteredLocalNews := items, filtered;
    }

    method SetLocalCounters(page: int, total: int)
      modifies this
      ensures Snapshot() == old(Snapshot()).(localFeed := old(Snapshot()).localFeed.(page := page, total := total))
    {
      localNewsPage, localNewsTotalResults := page, total;
    }

    method SetGlobalFeed(f: Feed)
      modifies this
      ensures Snapshot() == old(Snapshot()).(globalFeed := f)
    {
      SetGlobalArticles(f.items, f.filtered);
      SetGlobalCounters(f.page, f.total);
    }

    method SetGlobalArticles(items: seq<Article>, filtered: seq<Article>)
      modifies this
      ensures Snapshot() == old(Snapshot()).(globalFeed := old(Snapshot()).globalFeed.(items := items, filtered := filtered))
    {
      globalNews, filteredGlobalNews := items, filtered;
    }

    method SetGlobalCounters(page: int, total: int)
      modifies this
      ensures Snapshot() == old(Snapshot()).(globalFeed := old(Snapshot()).globalFeed.(page := page, total := total))
    {
      globalNewsPage, globalNewsTotalResults := page, total;
    }

    /** One collection's four fields, as a value. */
    method FeedFields(k: Kind) returns (f: Feed)
      ensures f == Snapshot().FeedOf(k)
    {
      if k == LocalNews {
        f := Feed(localNews, filteredLocalNews, localNewsPage, localNewsTotalResults);
      } else {
        f := Feed(globalNews, filteredGlobalNews, globalNewsPage, globalNewsTotalResults);
      }
    }

    /** The articles of an ok response: keep the valid ones, record the total, move the page on. */
    method StoreArticles(k: Kind, more: bool, articles: seq<Article>, totalResults: int)
      requires Valid()
      modifies this
      ensures Snapshot() == old(Snapshot()).WithFeed(k, Ingest(old(Snapshot()).FeedOf(k), more, articles, totalResults))
      ensures Valid()
    {
      var f := FeedFields(k);
      IngestValid(f, more, articles, totalResults);
      var valid := ValidArticles(articles);
      var items := if more then f.items + valid else valid;
      var page := if |valid| > 0 || totalResults > |items| then f.page + 1 else f.page;
      SetFeed(k, Feed(items, f.filtered, page, totalResults));
    }

    /** The `try` block of `fetchNews`: an ok response is stored and filtered, any other one is an error. */
    method AbsorbNewsResponse(k: Kind, more: bool, resp: NewsResponse)
      requires Valid()
      modifies this
      ensures Snapshot() == Absorb(old(Snapshot()), k, more, resp)
      ensures Valid()
    {
      if resp.IsOk() {
        StoreArticles(k, more, resp.articles.value, resp.totalResults);
        ApplyNewsFilter();
      } else {
        error := Some(NewsErrorMessage(k, resp));
      }
    }

    /** The `finally` block of `fetchNews`. */
    method SettleNewsFetch(k: Kind, more: bool)
      requires Valid()
      modifies this
      ensures Snapshot() == Settle(old(Snapshot()), k, more)
      ensures Valid()
    {
      SettleSpec(Snapshot(), k, more);
      if more {
        isLoadingMore := false;
      } else {
        isLoading := false;
        if activeTab == TabOf(k) {
          ApplyNewsFilter();
        }
      }
    }

    /** `fetchNews` after its request. */
    method CompleteFetchNews(k: Kind, more: bool, resp: NewsResponse)
      requires Valid()
      modifies this
      ensures Snapshot() == FinishFetch(old(Snapshot()), k, more, resp)
      ensures Valid()
    {
      AbsorbNewsResponse(k, more, resp);
      SettleNewsFetch(k, more);
    }

    /** `handleSearchInput`. */
    method HandleSearchInput(value: string)
      requires Valid()
      modifies this
      ensures Snapshot() == Search(old(Snapshot()), value)
      ensures Valid()
    {
      searchTerm := value;
      ApplyNewsFilter();
    }

    /** `handleLoadMore`: ask for the next page of a collection. */
    method HandleLoadMore(k: Kind) returns (req: Option<NewsRequest>)
      requires Valid()
      modifies this
      ensures Step(Snapshot(), req) == BeginFetch(old(Snapshot()), k, true)
      ensures Valid()
    {
      if isLoadingMore { return None; }
      req := BeginFetchNews(k, true);
    }

    /** Empty a collection's articles, view and page, then start a reset fetch of it. */
    method ClearAndFetch(k: Kind) returns (req: Option<NewsRequest>)
      requires Valid()
      modifies this
      ensures Step(Snapshot(), req) == Refetch(old(Snapshot()), k)
      ensures Valid()
    {
      var f := FeedFields(k);
      SetFeed(k, f.(items := [], page := 1, filtered := []));
      req := BeginFetchNews(k, false);
    }

    /** `saveCountryOverride`, with None for a null choice. */
    method SaveCountryOverride(code: Option<string>) returns (req: Option<NewsRequest>)
      requires Valid()
      modifies this
      ensures Step(Snapshot(), req) == SaveCountry(old(Snapshot()), code)
      ensures Valid()
    {
      var previous := userSelectedCountry;
      StoreCountry(if code.None? || code.value == "" then None else code);
      var current := if userSelectedCountry.Some? && userSelectedCountry.value != "" then userSelectedCountry.value else detectedCountry;
      var before := if previous.Some? && previous.value != "" then previous.value else detectedCountry;
      if activeTab == LocalTab && current != before && current != LoadingCountry {
        req := ClearAndFetch(LocalNews);
      } else {
        req := None;
      }
    }

    /** `saveGlobalKeywords`: compare the sorted keyword lists before and after. */
    method SaveGlobalKeywords(input: string) returns (req: Option<NewsRequest>)
      requires Valid()
      modifies this
      ensures Step(Snapshot(), req) == SaveKeywords(old(Snapshot()), input)
      ensures Valid()
    {
      var oldSorted := Keywords.SortStrings(globalUserKeywords);
      var keywords := Keywords.Normalize(input);
      StoreKeywords(keywords);
      var newSorted := Keywords.SortStrings(keywords);
      if activeTab == GlobalTab && newSorted != oldSorted {
        req := ClearAndFetch(GlobalNews);
      } else {
        req := None;
      }
    }

    /** Record the country choice and write it to storage. */
    method StoreCountry(choice: Option<string>)
      modifies this
      ensures Snapshot() == old(Snapshot()).(userSelectedCountry := choice, savedCountry := choice)
    {
      userSelectedCountry, savedCountry := choice, choice;
    }

    /** Record the keyword list and write it to storage. */
    method StoreKeywords(keywords: seq<string>)
      modifies this
      ensures Snapshot() == old(Snapshot()).(globalUserKeywords := keywords, savedKeywords := Some(keywords))
    {
      globalUserKeywords, savedKeywords := keywords, Some(keywords);
    }

    /** `sendMessage` up to its request; `id` is the identifier generated for the user's message. */
    method BeginSendMessage(input: string, id: string) returns (sent: bool)
      modifies this
      ensures sent == SendAccepted(old(Snapshot()), input)
      ensures Snapshot() == BeginSend(old(Snapshot()), input, id)
      ensures Valid() == old(Valid())
    {
      var message := Trim(input, JsSpaces);
      sent := message != "" && !isChatLoading;
      if sent {
        chatError, isChatLoading := None, true;
        AppendMessage(ChatMessage(id, message, false));
      }
    }

    /** `sendMessage` after its request; `id` is the identifier generated for the bot's message. */
    method CompleteSendMessage(resp: ChatResponse, id: string)
      modifies this
      ensures Snapshot() == FinishSend(old(Snapshot()), resp, id)
      ensures Valid() == old(Valid())
    {
      var text: string, err: Option<string>;
      match resp {
        case ChatReply(response, e) =>
          if response != "" {
            text, err := response, None;
          } else if e != "" {
            text, err := "Error: " + e, Some(e);
          } else {
            text, err := UnexpectedReply, Some(UnexpectedReply);
          }
        case ChatFailure =>
          text, err := ConnectionApology, Some(ConnectionFailed);
      }
      isChatLoading := false;
      if err.Some? {
        chatError := err;
      }
      AppendMessage(ChatMessage(id, text, true));
    }

    /** Add a message to the end of the conversation. */
    method AppendMessage(m: ChatMessage)
      modifies this
      ensures Snapshot() == old(Snapshot()).(chatMessages := old(Snapshot()).chatMessages + [m])
    {
      chatMessages := chatMessages + [m];
    }

    /** `openChatPanelMobile`. */
    method OpenChatPanel()
      modifies this
      ensures Snapshot() == old(Snapshot()).(isChatPanelOpenMobile := true)
    {
      isChatPanelOpenMobile := true;
    }

    /** `closeChatPanelMobile`. */
    method CloseChatPanel()
      modifies this
      ensures Snapshot() == old(Snapshot()).(isChatPanelOpenMobile := false)
    {
      isChatPanelOpenMobile := false;
    }

    /** `handleResize` for a window `width` pixels wide. */
    method HandleResize(width: int)
      modifies this
      ensures Snapshot() == Resize(old(Snapshot()), width)
    {
      if width >= LargeScreenWidth && isChatPanelOpenMobile {
        CloseChatPanel();
      }
    }

    /** The first part of `handleTabClick`: activate the tab and place the chat; a new tab clears search and error. */
    method ArriveAt(clicked: Tab, width: int)
      modifies this
      ensures Snapshot() == Arrive(old(Snapshot()), clicked, width)
    {
      var previous := activeTab;
      SetActiveTab(clicked);
      if clicked == SettingsTab {
        if isChatPanelOpenMobile { CloseChatPanel(); }
      } else {
        HandleResize(width);
      }
      if previous != clicked {
        ClearSearch();
      }
    }

    method SetActiveTab(clicked: Tab)
      modifies this
      ensures Snapshot() == old(Snapshot()).(activeTab := clicked)
    {
      activeTab := clicked;
    }

    /** Empty the search box and dismiss the error. */
    method ClearSearch()
      modifies this
      ensures Snapshot() == old(Snapshot()).(searchTerm := "", error := None)
    {
      searchTerm, error := "", None;
    }

    /** Show a news tab entered from `previous`: refetch it when empty, newly entered or in error, else refilter. */
    method EnterNews(k: Kind, previous: Tab) returns (req: Option<NewsRequest>)
      requires Valid()
      modifies this
      ensures TabStep(Snapshot(), req, false) == EnterNewsTab(old(Snapshot()), previous, k)
      ensures Valid()
    {
      var items := if k == LocalNews then localNews else globalNews;
      if |items| == 0 || previous != TabOf(k) || error.Some? {
        req := BeginFetchNews(k, false);
      } else {
        ApplyNewsFilter();
        req := None;
      }
    }

    /**
     * `handleTabClick` for a window `width` pixels wide: the news request
     * sent, if any, and whether the country lookup starts.
     */
    method HandleTabClick(clicked: Tab, width: int) returns (req: Option<NewsRequest>, lookupCountry: bool)
      requires Valid()
      modifies this
      ensures TabStep(Snapshot(), req, lookupCountry) == ClickTab(old(Snapshot()), clicked, width)
      ensures Valid()
    {
      ghost var s0 := Snapshot();
      var previous := activeTab;
      ArriveAt(clicked, width);
      ghost var s1 := Snapshot();
      assert Valid() by { ArriveSpec(s0, clicked, width); }
      lookupCountry := false;
      match clicked {
        case LocalTab =>
          assert ClickTab(s0, clicked, width) == EnterNewsTab(s1, previous, LocalNews);
          req := EnterNews(LocalNews, previous);
        case GlobalTab =>
          assert ClickTab(s0, clicked, width) == EnterNewsTab(s1, previous, GlobalNews);
          req := EnterNews(GlobalNews, previous);
        case InsightsTab =>
          req := None;
        case SettingsTab =>
          req := None;
          lookupCountry := detectedCountry == LoadingCountry || detectedCountry == "N/A" || detectedCountry == "Error";
      }
    }

    /** `fetchDetectedCountry` after its probe request, which was `reached` or failed. */
    method CompleteCountryLookup(reached: bool)
      modifies this
      ensures Snapshot() == FinishCountryLookup(old(Snapshot()), reached)
      ensures Valid() == old(Valid())
    {
      if reached {
        detectedCountry := if userSelectedCountry.Some? && userSelectedCountry.value != "" then userSelectedCountry.value else DefaultCountry;
      } else {
        detectedCountry := "N/A";
      }
    }
  }
}
