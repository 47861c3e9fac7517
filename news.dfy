/**
 * The news feed data of the dashboard: articles, which of them are kept at
 * ingestion, the case-insensitive search view, the page-counter rule, the
 * "Load more" rule and the response the news endpoint gives the browser.
 */
module News {
  import opened Wrappers
  import opened Text

  /**
   * An article as the news endpoint delivers it. An empty string stands for
   * a field that is missing, null or empty (all falsy in the source).
   */
  datatype Article = Article(title: string, description: string, url: string, sourceName: string, urlToImage: string)

  /** An article is kept only when title, description, url and source name are all present. */
  predicate IsValidArticle(a: Article) {
    a.title != "" && a.description != "" && a.url != "" && a.sourceName != ""
  }

  /** `articles.filter(article => article && article.title && ... && article.source?.name)`. */
  function ValidArticles(raw: seq<Article>): (r: seq<Article>)
  {
    if raw == [] then []
    else (if IsValidArticle(raw[0]) then [raw[0]] else []) + ValidArticles(raw[1..])
  }

  /** Every article passed the ingestion filter: filtering again keeps them all. */
  predicate AllValid(s: seq<Article>) {
    ValidArticles(s) == s
  }

  /** Exactly the valid articles are kept, none is invented, and filtering twice is filtering once. */
  lemma {:induction false} ValidArticlesSpec(raw: seq<Article>)
    ensures AllValid(ValidArticles(raw))
    ensures forall a :: a in ValidArticles(raw) <==> a in raw && IsValidArticle(a)
    ensures |ValidArticles(raw)| <= |raw|
  {
    if raw != [] {
      ValidArticlesSpec(raw[1..]);
      assert raw == [raw[0]] + raw[1..];
      var rest := ValidArticles(raw[1..]);
      if IsValidArticle(raw[0]) {
        var r := [raw[0]] + rest;
        assert r[0] == raw[0] && r[1..] == rest;
        assert ValidArticles(r) == [raw[0]] + ValidArticles(rest);
      } else {
        assert ValidArticles(raw) == rest;
      }
    }
  }

  /** A list passes the ingestion filter unchanged exactly when each of its articles is valid. */
  lemma {:induction false} AllValidIff(s: seq<Article>)
    ensures AllValid(s) <==> forall a :: a in s ==> IsValidArticle(a)
  {
    ValidArticlesSpec(s);
    if s != [] {
      AllValidIff(s[1..]);
      ValidArticlesSpec(s[1..]);
      assert s == [s[0]] + s[1..];
      if !IsValidArticle(s[0]) {
        assert |ValidArticles(s)| <= |s[1..]| < |s|;
      } else {
        var v := ValidArticles(s[1..]);
        assert ValidArticles(s) == [s[0]] + v;
        assert ([s[0]] + v)[1..] == v;
      }
    }
  }

  /** Filtering is done piece by piece: the order of the upstream list is kept. */
  lemma {:induction false} ValidArticlesAppend(a: seq<Article>, b: seq<Article>)
    ensures ValidArticles(a + b) == ValidArticles(a) + ValidArticles(b)
  {
    if a == [] {
      assert a + b == b;
    } else {
      assert (a + b)[0] == a[0];
      assert (a + b)[1..] == a[1..] + b;
      ValidArticlesAppend(a[1..], b);
    }
  }

  /** The search key: `searchTerm.toLowerCase().trim()`. */
  function SearchKey(searchTerm: string): string {
    Trim(ToLower(searchTerm), JsSpaces)
  }

  /** The key is empty exactly when the typed term is blank. */
  lemma SearchKeyEmptyIff(searchTerm: string)
    ensures SearchKey(searchTerm) == "" <==> IsBlank(searchTerm, JsSpaces)
  {
    LowerKeepsSpaces(searchTerm, JsSpaces);
  }

  /** Title, description or source name contains the key, ignoring case. */
  predicate Matches(a: Article, key: string) {
    || (a.title != "" && Contains(ToLower(a.title), key))
    || (a.description != "" && Contains(ToLower(a.description), key))
    || (a.sourceName != "" && Contains(ToLower(a.sourceName), key))
  }

  /** `sourceNews.filter(article => ...)`: the matching articles, in order. */
  function FilterMatching(items: seq<Article>, key: string): (r: seq<Article>)
  {
    if items == [] then []
    else (if Matches(items[0], key) then [items[0]] else []) + FilterMatching(items[1..], key)
  }

  /** The search view: a copy of the collection for an empty key, else the matching articles. */
  function FilterView(items: seq<Article>, key: string): seq<Article> {
    if key == "" then items else FilterMatching(items, key)
  }

  /** The filtered list holds exactly the matching articles of the collection and no others. */
  lemma {:induction false} FilterMatchingSpec(items: seq<Article>, key: string)
    ensures forall a :: a in FilterMatching(items, key) <==> a in items && Matches(a, key)
    ensures |FilterMatching(items, key)| <= |items|
  {
    if items != [] {
      FilterMatchingSpec(items[1..], key);
      assert items == [items[0]] + items[1..];
    }
  }

  /** Filtering commutes with concatenation, so the relative order of the collection is kept. */
  lemma {:induction false} FilterMatchingAppend(a: seq<Article>, b: seq<Article>, key: string)
    ensures FilterMatching(a + b, key) == FilterMatching(a, key) + FilterMatching(b, key)
  {
    if a == [] {
      assert a + b == b;
    } else {
      assert (a + b)[0] == a[0];
      assert (a + b)[1..] == a[1..] + b;
      FilterMatchingAppend(a[1..], b, key);
    }
  }

  /** The search filter and the ingestion filter commute. */
  lemma {:induction false} FilterCommutes(items: seq<Article>, key: string)
    ensures ValidArticles(FilterMatching(items, key)) == FilterMatching(ValidArticles(items), key)
  {
    if items != [] {
      FilterCommutes(items[1..], key);
      var x := items[0];
      var head := if Matches(x, key) then [x] else [];
      var rest := FilterMatching(items[1..], key);
      assert FilterMatching(items, key) == head + rest;
      ValidArticlesAppend(head, rest);
      var vhead := if IsValidArticle(x) then [x] else [];
      var vrest := ValidArticles(items[1..]);
      assert ValidArticles(items) == vhead + vrest;
      FilterMatchingAppend(vhead, vrest, key);
      if head != [] { assert head[1..] == []; }
      if vhead != [] { assert vhead[1..] == []; }
    }
  }

  /** The view never holds an article the collection lacks, and never an invalid one. */
  lemma FilterViewWithin(items: seq<Article>, key: string)
    ensures forall a :: a in FilterView(items, key) ==> a in items
    ensures AllValid(items) ==> AllValid(FilterView(items, key))
  {
    FilterMatchingSpec(items, key);
    FilterCommutes(items, key);
  }

  lemma FilterViewValid(items: seq<Article>, key: string)
    requires AllValid(items)
    ensures AllValid(FilterView(items, key))
  {
    FilterViewWithin(items, key);
  }

  /** Appending valid articles to valid articles keeps every article valid. */
  lemma AllValidAppend(a: seq<Article>, b: seq<Article>)
    requires AllValid(a) && AllValid(b)
    ensures AllValid(a + b)
  {
    ValidArticlesAppend(a, b);
  }

  /** The search ignores the case of the typed term. */
  lemma SearchIgnoresCase(items: seq<Article>, term: string)
    ensures FilterView(items, SearchKey(ToLower(term))) == FilterView(items, SearchKey(term))
  {
    ToLowerIdempotent(term);
  }

  /** The two news collections. */
  datatype Kind = LocalNews | GlobalNews {
    function Name(): string {
      match this
      case LocalNews => "local"
      case GlobalNews => "global"
    }
  }

  /**
   * One collection: its loaded items, its filtered view, the page counter
   * used by the next "load more" and the total the endpoint last reported.
   */
  datatype Feed = Feed(items: seq<Article>, filtered: seq<Article>, page: int, total: int)

  predicate FeedValid(f: Feed) {
    AllValid(f.items) && AllValid(f.filtered)
  }

  /**
   * Page-counter rule after an ok response: advance when the response
   * brought a valid article or the total exceeds the number now loaded.
   */
  function NextPage(page: int, added: int, total: int, loaded: int): int {
    if added > 0 || total > loaded then page + 1 else page
  }

  /** "Load more" is shown when the user is not searching and the total is not yet reached. */
  predicate LoadMoreVisible(f: Feed, searchTerm: string) {
    IsBlank(searchTerm, JsSpaces) && |f.items| < f.total && f.total > 0
  }

  /**
   * What the browser receives from `/api/news`: a decoded JSON body (its
   * status, its articles when the field is an array, its total with a
   * missing total read as 0, its message with "" for none), or a failure
   * of the request or of the JSON decoding, with the error's message.
   */
  datatype NewsResponse =
    | NewsReply(status: string, articles: Option<seq<Article>>, totalResults: int, message: string)
    | NewsFailure(reason: string)
  {
    /** `result.status === 'ok' && Array.isArray(result.articles)`. */
    predicate IsOk() {
      NewsReply? && status == "ok" && articles.Some?
    }
  }

  /** The error text recorded for a response that is not ok. */
  function NewsErrorMessage(k: Kind, resp: NewsResponse): (m: string)
    ensures m != ""
  {
    match resp
    case NewsReply(_, _, _, message) =>
      if message != "" then message else "Error fetching " + k.Name() + " news."
    case NewsFailure(reason) =>
      "Network error while fetching " + k.Name() + " news: " + reason
  }
}
