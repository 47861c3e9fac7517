/**
 * The parts of the Flask backend that do not depend on the AI or HTTP
 * libraries: reading and clamping the news endpoint's query, shaping its
 * reply, reading the impact rating out of a summary, canonicalising the
 * buy/wait/sell signal, checking a suggested domain and deciding when a
 * ticker is worth a stock lookup. Every call into an outside service is
 * an input value here.
 */
module Backend {
  import opened Wrappers
  import opened Text
  import News

  /** `DEFAULT_PAGE_SIZE`. */
  const DefaultPageSize := 20
  /** The largest page size the news provider accepts. */
  const MaxPageSize := 100
  /**
   * CPython's default `sys.get_int_max_str_digits()`: `int()` refuses a
   * decimal literal with more digits, and `str()` an integer with more.
   */
  const MaxStrDigits := 4300

  predicate IsDigit(c: char) {
    '0' <= c <= '9'
  }

  predicate AllDigitChars(s: string) {
    forall i :: 0 <= i < |s| ==> IsDigit(s[i])
  }

  // ---------------------------------------------------------------------
  // Python's int() on a query-string value
  // ---------------------------------------------------------------------

  /**
   * The digit part `int()` accepts: digits, with single underscores
   * allowed between two digits.
   */
  predicate DigitGroups(s: string) {
    && |s| > 0 && IsDigit(s[0]) && IsDigit(s[|s| - 1])
    && (forall i :: 0 <= i < |s| ==> IsDigit(s[i]) || s[i] == '_')
    && (forall i :: 0 <= i < |s| - 1 && s[i] == '_' ==> s[i + 1] != '_')
  }

  /** The digits of `s` with the underscores removed. */
  function DropUnderscores(s: string): (r: string)
    ensures |r| <= |s|
    ensures (forall i :: 0 <= i < |s| ==> IsDigit(s[i]) || s[i] == '_') ==> AllDigitChars(r)
    ensures AllDigitChars(s) ==> r == s
  {
    if s == [] then []
    else (if s[0] == '_' then [] else [s[0]]) + DropUnderscores(s[1..])
  }

  /** The value of a digit part. */
  function GroupsValue(s: string): nat
    requires DigitGroups(s)
  {
    DigitsValue(DropUnderscores(s))
  }

  /** `-v` when the sign is a minus, else `v`. */
  function Signed(negative: bool, v: nat): (r: int)
    ensures negative ==> r == -(v as int)
    ensures !negative ==> r == v
  {
    if negative then -(v as int) else v
  }

  /** An optional sign followed by a digit part, with nothing around it. */
  function ParseLiteral(t: string): Option<int> {
    if |t| > 0 && (t[0] == '-' || t[0] == '+') then
      match Unsigned(t[1..])
      case None => None
      case Some(v) => Some(Signed(t[0] == '-', v))
    else
      match Unsigned(t)
      case None => None
      case Some(v) => Some(v as int)
  }

  /** A digit part's value, or `None` for anything else and for more than `MaxStrDigits` digits. */
  function Unsigned(body: string): Option<nat> {
    if DigitGroups(body) && |DropUnderscores(body)| <= MaxStrDigits then Some(GroupsValue(body)) else None
  }

  /**
   * `int(s)` for a string: surrounding whitespace is ignored, then an
   * optional sign and a digit part of at most `MaxStrDigits` digits;
   * anything else raises `ValueError`, which is `None` here.
   */
  function ParseInt(s: string): Option<int> {
    ParseLiteral(Trim(s, PySpaces))
  }

  /** Plain digits, no more than the limit allows, read as their value. */
  lemma DigitsUnsigned(d: string)
    requires |d| > 0 && AllDigitChars(d) && |d| <= MaxStrDigits
    ensures Unsigned(d) == Some(DigitsValue(d))
  {
    DigitsAreGroups(d);
  }

  /** A literal of more digits than the limit is refused, whatever its value. */
  lemma ParseIntTooLong(d: string)
    requires AllDigitChars(d) && |d| > MaxStrDigits
    ensures ParseInt(d) == None && ParseInt("-" + d) == None
  {
    DigitsAreGroups(d);
    assert Unsigned(d) == None;
    assert IsDigit(d[0]);
    assert ParseLiteral(d) == None;
    assert ("-" + d)[1..] == d;
    assert ParseLiteral("-" + d) == None;
    DigitsTrimmed(d);
  }

  /** A rendering is never longer than the number plus one, so small numbers are renderable. */
  lemma {:induction false} RenderedLength(n: nat)
    ensures |NatToString(n)| <= n + 1
  {
    if n >= 10 {
      RenderedLength(n / 10);
    }
  }

  /** An integer `str()` can render: at most `MaxStrDigits` digits. */
  predicate Renderable(n: int) {
    |NatToString(if n < 0 then -n else n)| <= MaxStrDigits
  }

  /** A digit part reads as its value, and with a minus sign before it as the negated value. */
  lemma SignedLiteral(d: string, v: nat)
    requires Unsigned(d) == Some(v)
    ensures ParseLiteral(d) == Some(v as int)
    ensures ParseLiteral("-" + d) == Some(-(v as int))
  {
    assert ("-" + d)[1..] == d;
  }

  /** Plain digits are a digit part without underscores. */
  lemma DigitsAreGroups(d: string)
    requires |d| > 0 && AllDigitChars(d)
    ensures DigitGroups(d) && DropUnderscores(d) == d
  {
  }

  /** Digits, with or without a minus sign before them, have no whitespace around them. */
  lemma DigitsTrimmed(d: string)
    requires |d| > 0 && AllDigitChars(d)
    ensures Trim(d, PySpaces) == d && Trim("-" + d, PySpaces) == "-" + d
  {
    assert IsDigit(d[0]) && IsDigit(d[|d| - 1]);
    TrimmedIsFixed(d, PySpaces);
    var t := "-" + d;
    assert t[|t| - 1] == d[|d| - 1];
    TrimmedIsFixed(t, PySpaces);
  }

  /** Reading back Python's own rendering of any integer it can render gives that integer. */
  lemma ParseIntOfIntToString(n: int)
    requires Renderable(n)
    ensures ParseInt(IntToString(n)) == Some(n)
  {
    var m: nat := if n < 0 then -n else n;
    RenderedNat(m);
  }

  /** A rendered natural number, and its negation, read back as themselves. */
  lemma RenderedNat(m: nat)
    requires |NatToString(m)| <= MaxStrDigits
    ensures ParseInt(NatToString(m)) == Some(m)
    ensures ParseInt("-" + NatToString(m)) == Some(-(m as int))
  {
    var d := NatToString(m);
    DigitsTrimmed(d);
    DigitsValueOfNatToString(m);
    DigitsUnsigned(d);
    SignedLiteral(d, m);
  }

  /**
   * Blank text is refused, and so is text with any character other than
   * whitespace, digits, underscores and signs (a decimal point, a letter).
   */
  lemma ParseIntRefuses(s: string)
    ensures IsBlank(s, PySpaces) ==> ParseInt(s) == None
    ensures ParseInt(s).Some? ==> forall i :: 0 <= i < |s| && !IsSpace(s[i], PySpaces) ==> IsDigit(s[i]) || s[i] == '_' || s[i] == '-' || s[i] == '+'
  {
    var t := Trim(s, PySpaces);
    if ParseInt(s).Some? {
      forall i | 0 <= i < |s| && !IsSpace(s[i], PySpaces)
        ensures IsDigit(s[i]) || s[i] == '_' || s[i] == '-' || s[i] == '+'
      {
        var k := TrimKeepsInner(s, i);
        LiteralChars(t, k);
      }
    }
  }

  /** Every character of an accepted literal is a digit, an underscore or the leading sign. */
  lemma LiteralChars(t: string, k: int)
    requires ParseLiteral(t).Some? && 0 <= k < |t|
    ensures IsDigit(t[k]) || t[k] == '_' || (k == 0 && (t[k] == '-' || t[k] == '+'))
  {
    if k > 0 && (t[0] == '-' || t[0] == '+') {
      assert t[1..][k - 1] == t[k];
    }
  }

  /** A character that is not whitespace survives the trim. */
  lemma TrimKeepsInner(s: string, i: int) returns (k: int)
    requires 0 <= i < |s| && !IsSpace(s[i], PySpaces)
    ensures 0 <= k < |Trim(s, PySpaces)| && Trim(s, PySpaces)[k] == s[i]
  {
    var l := TrimLeft(s, PySpaces);
    var d := |s| - |l|;
    assert d <= i;
    assert l[i - d] == s[i];
    var r := TrimRight(l, PySpaces);
    assert i - d < |r|;
    k := i - d;
  }

  // ---------------------------------------------------------------------
  // get_news: query parameters
  // ---------------------------------------------------------------------

  /** A news query after validation and clamping. */
  datatype NewsQuery = NewsQuery(kind: News.Kind, page: int, pageSize: int)

  /** The endpoint either goes on with a query or answers at once with an error status and message. */
  datatype Checked = Proceed(query: NewsQuery) | Refuse(code: nat, message: string)

  /** `int(request.args.get(name, default))`: a missing argument gives the default. */
  function ArgOr(arg: Option<string>, default: int): Option<int> {
    match arg
    case None => Some(default)
    case Some(s) => ParseInt(s)
  }

  /** A page below 1 becomes 1. */
  function ClampPage(page: int): (r: int)
    ensures r >= 1
    ensures page >= 1 ==> r == page
    ensures page < 1 ==> r == 1
  {
    if page < 1 then 1 else page
  }

  /** A page size below 1 becomes the default; one above the provider's maximum becomes that maximum. */
  function ClampPageSize(size: int): (r: int)
    ensures 1 <= r <= MaxPageSize
    ensures size < 1 ==> r == DefaultPageSize
    ensures size > MaxPageSize ==> r == MaxPageSize
    ensures 1 <= size <= MaxPageSize ==> r == size
  {
    if size < 1 then DefaultPageSize
    else if size > MaxPageSize then MaxPageSize
    else size
  }

  /**
   * The checks at the top of `get_news`, in order: the API key, the two
   * numbers (both parsed before either is clamped), then the news type,
   * which defaults to local.
   */
  function CheckNewsQuery(hasKey: bool, typeArg: Option<string>, pageArg: Option<string>, sizeArg: Option<string>): (r: Checked)
    ensures r.Proceed? ==> r.query.page >= 1 && 1 <= r.query.pageSize <= MaxPageSize
    ensures r.Refuse? ==> r.code in {400, 500}
  {
    var page := ArgOr(pageArg, 1);
    var size := ArgOr(sizeArg, DefaultPageSize);
    var kind := NewsKind(typeArg);
    if !hasKey then Refuse(500, "News API key not configured.")
    else if page.None? || size.None? then Refuse(400, "Invalid page or pageSize parameters.")
    else if kind.None? then Refuse(400, "Invalid news type specified.")
    else Proceed(NewsQuery(kind.value, ClampPage(page.value), ClampPageSize(size.value)))
  }

  /** The `type` argument, "local" when absent; only the two exact names are known. */
  function NewsKind(typeArg: Option<string>): (k: Option<News.Kind>)
    ensures k.Some? <==> typeArg.GetOr("local") in {"local", "global"}
    ensures k.Some? ==> k.value.Name() == typeArg.GetOr("local")
  {
    var name := typeArg.GetOr("local");
    if name == "local" then Some(News.LocalNews)
    else if name == "global" then Some(News.GlobalNews)
    else None
  }

  /**
   * The query goes on exactly when the key is set, both numbers parse and
   * the type is local (or absent) or global; the numbers are clamped as
   * stated, and each refusal carries its own status and message.
   */
  lemma CheckNewsQuerySpec(hasKey: bool, typeArg: Option<string>, pageArg: Option<string>, sizeArg: Option<string>)
    ensures var r := CheckNewsQuery(hasKey, typeArg, pageArg, sizeArg);
      var page, size := ArgOr(pageArg, 1), ArgOr(sizeArg, DefaultPageSize);
      && (r.Proceed? <==> hasKey && page.Some? && size.Some? && typeArg.GetOr("local") in {"local", "global"})
      && (r.Proceed? ==> r.query.page == ClampPage(page.value) && r.query.pageSize == ClampPageSize(size.value))
      && (r.Proceed? ==> (r.query.kind == News.LocalNews <==> typeArg.GetOr("local") == "local"))
      && (!hasKey ==> r == Refuse(500, "News API key not configured."))
      && (hasKey && (page.None? || size.None?) ==> r == Refuse(400, "Invalid page or pageSize parameters."))
      && (hasKey && page.Some? && size.Some? && typeArg.GetOr("local") !in {"local", "global"} ==> r == Refuse(400, "Invalid news type specified."))
  {
  }

  /** Absent numbers give page 1 with the default page size. */
  lemma CheckNewsQueryDefaults(kind: News.Kind)
    ensures CheckNewsQuery(true, Some(kind.Name()), None, None) == Proceed(NewsQuery(kind, 1, DefaultPageSize))
  {
  }

  /**
   * Every accepted query has numbers in range (the ensures of
   * `CheckNewsQuery`), and sending back such a query's own numbers and type
   * is accepted unchanged: the clamping is idempotent.
   */
  lemma CheckNewsQueryStable(q: NewsQuery)
    requires q.page >= 1 && 1 <= q.pageSize <= MaxPageSize && Renderable(q.page)
    ensures CheckNewsQuery(true, Some(q.kind.Name()), Some(IntToString(q.page)), Some(IntToString(q.pageSize))) == Proceed(q)
  {
    RenderedArg(q.page, 1);
    RenderedLength(q.pageSize);
    RenderedArg(q.pageSize, DefaultPageSize);
    NewsKindName(q.kind);
    CheckNewsQueryAccepts(Some(q.kind.Name()), Some(IntToString(q.page)), Some(IntToString(q.pageSize)), q.page, q.pageSize, q.kind);
  }

  /** Each kind's own name selects it. */
  lemma NewsKindName(kind: News.Kind)
    ensures NewsKind(Some(kind.Name())) == Some(kind)
  {
  }

  /** A rendered number given as an argument reads as that number. */
  lemma RenderedArg(n: int, default: int)
    requires Renderable(n)
    ensures ArgOr(Some(IntToString(n)), default) == Some(n)
  {
    ParseIntOfIntToString(n);
  }

  /** With the key set, a readable page, page size and type give the clamped query. */
  lemma CheckNewsQueryAccepts(typeArg: Option<string>, pageArg: Option<string>, sizeArg: Option<string>, page: int, size: int, kind: News.Kind)
    requires ArgOr(pageArg, 1) == Some(page) && ArgOr(sizeArg, DefaultPageSize) == Some(size) && NewsKind(typeArg) == Some(kind)
    ensures CheckNewsQuery(true, typeArg, pageArg, sizeArg) == Proceed(NewsQuery(kind, ClampPage(page), ClampPageSize(size)))
  {
  }

  // ---------------------------------------------------------------------
  // get_news: the reply
  // ---------------------------------------------------------------------

  /**
   * The decoded body of the news provider's answer: its `status` and
   * `message` (`None` when the key is missing), its articles (a missing
   * list is empty) and its `totalResults`.
   */
  datatype ProviderBody = ProviderBody(status: Option<string>, message: Option<string>, articles: seq<News.Article>, totalResults: Option<int>)

  /** How the request to the provider ended. */
  datatype Provider =
    | TimedOut
    | RequestFailed(detail: string)
    | Crashed
    | Answered(body: ProviderBody)

  /** The JSON body the endpoint returns. `withList` marks an error body that also carries an empty list and a zero total. */
  datatype NewsBody =
    | NewsPage(totalResults: int, articles: seq<News.Article>, page: int)
    | NewsError(message: string, withList: bool)

  datatype NewsReply = NewsReply(code: nat, body: NewsBody)

  /** The `try` block of `get_news` and its three handlers, for an accepted query. */
  function ShapeNews(page: int, provider: Provider): (r: NewsReply)
    ensures r.code == 200 <==> r.body.NewsPage?
  {
    match provider
    case TimedOut => NewsReply(504, NewsError("Request to news provider timed out.", true))
    case RequestFailed(detail) => NewsReply(500, NewsError("Could not connect to news provider: " + detail, true))
    case Crashed => NewsReply(500, NewsError("An internal server error occurred.", true))
    case Answered(body) =>
      if body.status != Some("ok") then
        NewsReply(500, NewsError(body.message.GetOr("Unknown API error from NewsAPI"), true))
      else
        NewsReply(200, NewsPage(body.totalResults.GetOr(0), News.ValidArticles(body.articles), page))
  }

  /** The whole of `get_news`: the query checks, then the provider's answer. */
  function GetNews(hasKey: bool, typeArg: Option<string>, pageArg: Option<string>, sizeArg: Option<string>, provider: Provider): (r: NewsReply)
    ensures r.body.NewsPage? ==> r.body.page >= 1
  {
    match CheckNewsQuery(hasKey, typeArg, pageArg, sizeArg)
    case Refuse(code, message) => NewsReply(code, NewsError(message, false))
    case Proceed(q) => ShapeNews(q.page, provider)
  }

  /**
   * An ok page holds exactly the provider's complete articles, in their
   * order, with the provider's total (0 when missing) and the clamped page.
   * Every other outcome is an error status whose body carries an empty list
   * and a zero total.
   */
  lemma ShapeNewsSpec(page: int, provider: Provider)
    ensures var r := ShapeNews(page, provider);
      && (r.code == 200 <==> provider.Answered? && provider.body.status == Some("ok"))
      && (r.code == 200 ==> r.body == NewsPage(provider.body.totalResults.GetOr(0), News.ValidArticles(provider.body.articles), page))
      && (r.code == 200 ==> forall a :: a in r.body.articles <==> a in provider.body.articles && News.IsValidArticle(a))
      && (r.code != 200 ==> r.code in {500, 504} && r.body.NewsError? && r.body.withList)
    ensures provider.TimedOut? ==> ShapeNews(page, provider) == NewsReply(504, NewsError("Request to news provider timed out.", true))
    ensures provider.RequestFailed? ==>
      ShapeNews(page, provider) == NewsReply(500, NewsError("Could not connect to news provider: " + provider.detail, true))
    ensures provider.Crashed? ==> ShapeNews(page, provider) == NewsReply(500, NewsError("An internal server error occurred.", true))
    ensures provider.Answered? && provider.body.status != Some("ok") ==>
      ShapeNews(page, provider) == NewsReply(500, NewsError(provider.body.message.GetOr("Unknown API error from NewsAPI"), true))
  {
    if provider.Answered? {
      News.ValidArticlesSpec(provider.body.articles);
    }
  }

  /**
   * What the dashboard's `fetchNews` reads out of the endpoint's body: the
   * status, the list, the total (0 when absent) and the message.
   */
  function Delivered(r: NewsReply): (resp: News.NewsResponse)
    ensures resp.NewsReply?
  {
    match r.body
    case NewsPage(total, articles, _) => News.NewsReply("ok", Some(articles), total, "")
    case NewsError(message, withList) => News.NewsReply("error", if withList then Some([]) else None, 0, message)
  }

  /**
   * The dashboard treats the reply as ok exactly when the endpoint answered
   * 200, and its own ingestion filter then keeps every article delivered.
   */
  lemma DeliveredSpec(hasKey: bool, typeArg: Option<string>, pageArg: Option<string>, sizeArg: Option<string>, provider: Provider)
    ensures var r := GetNews(hasKey, typeArg, pageArg, sizeArg, provider);
      && (Delivered(r).IsOk() <==> r.code == 200)
      && (r.code == 200 ==> News.AllValid(Delivered(r).articles.value))
  {
    var r := GetNews(hasKey, typeArg, pageArg, sizeArg, provider);
    if r.code == 200 {
      var q := CheckNewsQuery(hasKey, typeArg, pageArg, sizeArg).query;
      assert r == ShapeNews(q.page, provider);
      News.ValidArticlesSpec(provider.body.articles);
    }
  }

  // ---------------------------------------------------------------------
  // gemini_summary: the impact rating
  // ---------------------------------------------------------------------

  /** The heading before the rating, as the pattern writes it (matched ignoring case). */
  const RatingLabel := "section: impact rating"

  /** The first position at or after `i` that is not whitespace (`\s*`). */
  function SkipSpaces(s: string, i: nat): (j: nat)
    requires i <= |s|
    ensures i <= j <= |s|
    ensures forall k :: i <= k < j ==> IsSpace(s[k], PySpaces)
    ensures j == |s| || !IsSpace(s[j], PySpaces)
    decreases |s| - i
  {
    if i < |s| && IsSpace(s[i], PySpaces) then SkipSpaces(s, i + 1) else i
  }

  /** The pattern `SECTION: Impact Rating\s*(\d)` matches at position `i`; the digit's position. */
  predicate RatingAt(s: string, i: int) {
    && OccursAt(ToLower(s), RatingLabel, i)
    && SkipSpaces(s, i + |RatingLabel|) < |s|
    && IsDigit(s[SkipSpaces(s, i + |RatingLabel|)])
  }

  /** The value of the digit the pattern captures at a match. */
  function CapturedDigit(s: string, i: int): (d: nat)
    requires RatingAt(s, i)
    ensures d <= 9
  {
    s[SkipSpaces(s, i + |RatingLabel|)] as int - '0' as int
  }

  /** `re.search`: the digit captured by the leftmost match at or after position `i`, if any. */
  function RatingFrom(s: string, i: nat): (d: Option<nat>)
    requires i <= |s|
    ensures d.Some? ==> d.value <= 9
    decreases |s| - i
  {
    if i == |s| then None
    else if RatingAt(s, i) then Some(CapturedDigit(s, i))
    else RatingFrom(s, i + 1)
  }

  /** `impact_level`: the captured digit when it is 1 to 5, else 0. */
  function ImpactLevel(s: string): (level: nat)
    ensures level <= 5
  {
    var d := RatingFrom(s, 0);
    if d.Some? && 1 <= d.value <= 5 then d.value else 0
  }

  /**
   * When the leftmost match is at `i`, the level is its digit if that is
   * 1 to 5 and 0 otherwise: a later match is never consulted.
   */
  lemma ImpactLevelSpec(s: string, i: nat)
    requires i < |s| && RatingAt(s, i)
    requires forall k :: 0 <= k < i ==> !RatingAt(s, k)
    ensures ImpactLevel(s) == if 1 <= CapturedDigit(s, i) <= 5 then CapturedDigit(s, i) else 0
  {
    LeftmostRating(s, 0, i);
  }

  lemma {:induction false} LeftmostRating(s: string, from: nat, i: nat)
    requires from <= i < |s| && RatingAt(s, i)
    requires forall k :: from <= k < i ==> !RatingAt(s, k)
    ensures RatingFrom(s, from) == Some(CapturedDigit(s, i))
    decreases i - from
  {
    if from < i {
      LeftmostRating(s, from + 1, i);
    }
  }

  /** Without any match the level is 0. */
  lemma NoRatingIsZero(s: string)
    requires forall k :: 0 <= k < |s| ==> !RatingAt(s, k)
    ensures ImpactLevel(s) == 0
  {
    NoRatingFrom(s, 0);
  }

  lemma {:induction false} NoRatingFrom(s: string, from: nat)
    requires from <= |s|
    requires forall k :: from <= k < |s| ==> !RatingAt(s, k)
    ensures RatingFrom(s, from) == None
    decreases |s| - from
  {
    if from < |s| {
      NoRatingFrom(s, from + 1);
    }
  }

  // ---------------------------------------------------------------------
  // get_gemini_buy_wait_sell_recommendation
  // ---------------------------------------------------------------------

  /** The five signals, in the order they are tried. */
  const Signals := ["Strong Buy", "Buy", "Wait", "Sell", "Strong Sell"]

  /** `next(s for s in valid_signals if s.lower() == raw.lower())`, searching from position `i`. */
  function MatchSignal(raw: string, i: nat): (r: Option<string>)
    requires i <= |Signals|
    ensures r.Some? ==> r.value in Signals[i..] && ToLower(r.value) == ToLower(raw)
    ensures r.None? ==> forall k :: i <= k < |Signals| ==> ToLower(Signals[k]) != ToLower(raw)
    decreases |Signals| - i
  {
    if i == |Signals| then None
    else if ToLower(Signals[i]) == ToLower(raw) then Some(Signals[i])
    else MatchSignal(raw, i + 1)
  }

  /**
   * What the model call produced: no model configured, an exception, or a
   * response with its text parts and the block reason of its prompt
   * feedback, if any.
   */
  datatype SignalReply =
    | NoModel
    | CallFailed(detail: string)
    | Response(parts: seq<string>, blockReason: Option<string>)

  /** The `(recommendation, error)` pair the function returns. */
  datatype Recommendation = Recommendation(signal: string, error: Option<string>)

  function ConcatParts(parts: seq<string>): string {
    if parts == [] then "" else parts[0] + ConcatParts(parts[1..])
  }

  function Recommend(reply: SignalReply): (r: Recommendation)
  {
    match reply
    case NoModel => Recommendation("N/A", Some("AI model not available for recommendation."))
    case CallFailed(detail) => Recommendation("N/A", Some("Error getting AI recommendation: " + detail))
    case Response(parts, blockReason) =>
      if parts != [] then
        var raw := Trim(ConcatParts(parts), PySpaces);
        Recommendation(MatchSignal(raw, 0).GetOr("Wait"), None)
      else if blockReason.Some? then
        Recommendation("N/A", Some("AI content generation issue (" + blockReason.value + ")."))
      else Recommendation("Wait", None)
  }

  /**
   * The signal is always one of the five or "N/A", and it is "N/A" exactly
   * when an error comes with it. A response with text gives the signal
   * equal to the trimmed text ignoring case, else "Wait".
   */
  lemma RecommendSpec(reply: SignalReply)
    ensures var r := Recommend(reply);
      && (r.signal in Signals || r.signal == "N/A")
      && (r.signal == "N/A" <==> r.error.Some?)
  {
    NotASignal();
    if reply.Response? && reply.parts != [] {
      MatchedIsSignal(Trim(ConcatParts(reply.parts), PySpaces));
    }
  }

  /** The matched signal, or the "Wait" default, is one of the five. */
  lemma MatchedIsSignal(raw: string)
    ensures MatchSignal(raw, 0).GetOr("Wait") in Signals
  {
    assert Signals[2] == "Wait";
    assert Signals[0..] == Signals;
  }

  /**
   * For a response with text, no error comes back; a signal other than
   * "Wait" equals the trimmed text ignoring case, and text that matches no
   * signal gives "Wait".
   */
  lemma RecommendFromText(parts: seq<string>, blockReason: Option<string>)
    requires parts != []
    ensures var r := Recommend(Response(parts, blockReason));
      var raw := Trim(ConcatParts(parts), PySpaces);
      && r.error.None?
      && (r.signal != "Wait" ==> ToLower(r.signal) == ToLower(raw))
      && ((forall k :: 0 <= k < |Signals| ==> ToLower(Signals[k]) != ToLower(raw)) ==> r.signal == "Wait")
  {
  }

  /** Every error message is non-empty, so the profile routes always pass it on. */
  lemma ErrorsAreNonEmpty(reply: SignalReply)
    ensures Recommend(reply).error.Some? ==> Recommend(reply).error.value != ""
  {
    match reply
    case NoModel =>
    case CallFailed(detail) =>
      assert Recommend(reply).error.value[0] == 'E';
    case Response(parts, blockReason) =>
      if parts == [] && blockReason.Some? {
        assert Recommend(reply).error.value[0] == 'A';
      }
  }

  /** "N/A" is not one of the five signals. */
  lemma NotASignal()
    ensures "N/A" !in Signals
  {
    forall k | 0 <= k < |Signals| ensures Signals[k] != "N/A" {
      assert Signals[k][0] != 'N';
    }
  }

  /** A reply that is exactly a signal, in any case and with surrounding spaces, yields that signal. */
  lemma RecommendCanonical(k: nat, parts: seq<string>, blockReason: Option<string>)
    requires k < |Signals| && parts != []
    requires ToLower(Trim(ConcatParts(parts), PySpaces)) == ToLower(Signals[k])
    ensures Recommend(Response(parts, blockReason)).signal == Signals[k]
  {
    MatchSignalFinds(Trim(ConcatParts(parts), PySpaces), k);
  }

  /** Text equal to a signal ignoring case is matched to exactly that signal. */
  lemma MatchSignalFinds(raw: string, k: nat)
    requires k < |Signals| && ToLower(raw) == ToLower(Signals[k])
    ensures MatchSignal(raw, 0) == Some(Signals[k])
  {
    SignalsDistinct();
    MatchSignalFrom(raw, 0, k);
  }

  lemma {:induction false} MatchSignalFrom(raw: string, i: nat, k: nat)
    requires i <= k < |Signals| && ToLower(raw) == ToLower(Signals[k])
    requires forall j :: i <= j < k ==> ToLower(Signals[j]) != ToLower(Signals[k])
    ensures MatchSignal(raw, i) == Some(Signals[k])
    decreases k - i
  {
    if i < k {
      MatchSignalFrom(raw, i + 1, k);
    }
  }

  /** No two signals are equal ignoring case. */
  lemma SignalsDistinct()
    ensures forall i, j :: 0 <= i < j < |Signals| ==> ToLower(Signals[i]) != ToLower(Signals[j])
  {
    forall i, j | 0 <= i < j < |Signals| ensures ToLower(Signals[i]) != ToLower(Signals[j]) {
      if i == 2 && j == 3 {
        assert ToLower(Signals[i])[0] != ToLower(Signals[j])[0];
      } else {
        assert |Signals[i]| != |Signals[j]|;
      }
    }
  }

  // ---------------------------------------------------------------------
  // get_company_domain_from_gemini
  // ---------------------------------------------------------------------

  /** What the model call produced: no model, an exception, or the response's text ("" for none). */
  datatype DomainReply = NoDomainModel | DomainCallFailed | DomainText(text: string)

  /** The domain, or `None` when the answer cannot be one. */
  function CompanyDomain(reply: DomainReply): (r: Option<string>)
    ensures r.Some? ==> r.value != "unknown" && ' ' !in r.value && '.' in r.value
  {
    match reply
    case NoDomainModel => None
    case DomainCallFailed => None
    case DomainText(text) =>
      var domain := if text != "" then ToLower(Trim(text, PySpaces)) else "UNKNOWN";
      if domain == "unknown" || ' ' in domain || '.' !in domain then None else Some(domain)
  }

  /**
   * A text answer is kept exactly when its trimmed, lower-cased form has a
   * dot, no space and is not "unknown"; the domain is then that form, so it
   * is its own lower-case.
   */
  lemma CompanyDomainSpec(text: string)
    ensures var d := ToLower(Trim(text, PySpaces));
      && (CompanyDomain(DomainText(text)).Some? <==> text != "" && d != "unknown" && ' ' !in d && '.' in d)
      && (CompanyDomain(DomainText(text)).Some? ==> CompanyDomain(DomainText(text)).value == d)
      && (CompanyDomain(DomainText(text)).Some? ==> ToLower(CompanyDomain(DomainText(text)).value) == CompanyDomain(DomainText(text)).value)
  {
    ToLowerIdempotent(Trim(text, PySpaces));
    if text == "" {
      assert '.' !in "UNKNOWN";
    }
  }

  // ---------------------------------------------------------------------
  // Ticker gate
  // ---------------------------------------------------------------------

  /** Tickers that stand for "no listed stock". */
  const NoStockTickers := {"PRIVATE", "UNKNOWN", "N/A"}

  /** The gate before a stock lookup: a non-empty ticker whose upper-case form is not a placeholder. */
  predicate StockEligible(ticker: string) {
    ticker != "" && ToUpper(ticker) !in NoStockTickers
  }

  /** How `get_enhanced_stock_data_from_fmp` ends before any request. */
  datatype StockGate = NoStockKey | NotApplicable | Lookup(ticker: string)

  function StockLookup(hasKey: bool, ticker: string): (g: StockGate)
    ensures g.Lookup? <==> hasKey && StockEligible(ticker)
    ensures g.Lookup? ==> g.ticker == ticker
  {
    if !hasKey then NoStockKey
    else if !StockEligible(ticker) then NotApplicable
    else Lookup(ticker)
  }

  /**
   * `FMP_API_KEY` is assigned a non-empty string literal rather than the
   * environment variable it names, so the key test never fails.
   */
  const FmpKeyConfigured := true

  /**
   * The stock step of the profile route: no lookup for a placeholder or
   * empty ticker, else the lookup function with the configured key. Since
   * the key is always set, the route never meets either early return.
   */
  function RouteStockGate(ticker: string): (g: Option<StockGate>)
    ensures g.Some? <==> StockEligible(ticker)
    ensures g.Some? ==> g.value == Lookup(ticker)
    ensures g != Some(NoStockKey) && g != Some(NotApplicable)
  {
    if StockEligible(ticker) then Some(StockLookup(FmpKeyConfigured, ticker)) else None
  }

  /** The message of the early returns. */
  function StockGateMessage(g: StockGate): (m: Option<string>)
    ensures m.None? <==> g.Lookup?
  {
    match g
    case NoStockKey => Some("FinancialModelingPrep API Key not configured.")
    case NotApplicable => Some("Ticker is not applicable or unknown for this company.")
    case Lookup(_) => None
  }

  /**
   * The profile route asks for stock data only for an eligible ticker, so
   * the lookup function's own "not applicable" answer is never reached from
   * there; a placeholder ticker in any letter case is never looked up.
   */
  lemma RouteSkipsPlaceholders(hasKey: bool, ticker: string)
    ensures StockEligible(ticker) ==> StockLookup(hasKey, ticker) != NotApplicable
    ensures forall t :: t in NoStockTickers && ToUpper(ticker) == t ==> !StockLookup(hasKey, ticker).Lookup?
  {
  }

  /** `"ticker_symbol": ticker or "N/A"`. */
  function TickerField(ticker: string): (r: string)
    ensures r != ""
    ensures ticker != "" ==> r == ticker
  {
    if ticker != "" then ticker else "N/A"
  }
}
