/**
 * The display classifiers of a company profile card: where the
 * recommendation slider's thumb goes and what it says, the note under it,
 * the ticker badge and the message of the stock section when no stock data
 * came back.
 */
module Classify {
  import opened Wrappers
  import opened Text
  import Backend

  /** The slider's thumb position (percent), its colour and the label shown. */
  datatype Slider = Slider(position: nat, colour: string, caption: string)

  /** The thumb colour when no rule picks one, which follows the page theme. */
  function DefaultColour(dark: bool): string {
    if dark then "#9ca3af" else "#6b7280"
  }

  const StrongBuyLabel := "Strong Buy \U{1F4AA}"
  const BuyLabel := "Buy \U{1F44D}"
  const StableLabel := "Stable \U{2696}\U{FE0F} "
  const SellLabel := "Sell \U{1F44E}"
  const StrongSellLabel := "Strong Sell \U{1F6A8}"

  /**
   * The first rule that matches the lower-cased recommendation picks the
   * slider; without a match the thumb stays in the middle under the
   * recommendation's own text.
   */
  function RecommendationSlider(rec: string, dark: bool): (s: Slider)
    ensures s.position in {95, 75, 50, 25, 5}
    ensures s.position == 50 ==> s.colour == DefaultColour(dark)
  {
    var low := ToLower(rec);
    if Contains(low, "strong buy") then Slider(95, "#10b981", StrongBuyLabel)
    else if Contains(low, "buy") then Slider(75, "#34d399", BuyLabel)
    else if Contains(low, "wait") || ToUpper(rec) == "N/A" then Slider(50, DefaultColour(dark), StableLabel)
    else if Contains(low, "sell") && !Contains(low, "strong") then Slider(25, "#f59e0b", SellLabel)
    else if Contains(low, "strong sell") then Slider(5, "#ef4444", StrongSellLabel)
    else Slider(50, DefaultColour(dark), rec)
  }

  /**
   * Each position belongs to one rule, and the earlier rules win: text with
   * "strong buy" is at 95, other text with "buy" at 75, then "wait" or
   * "N/A" at 50 as "Stable", then "sell" without "strong" at 25, then
   * "strong sell" at 5; a text that matches no rule keeps its own words
   * at 50.
   */
  lemma RecommendationSliderSpec(rec: string, dark: bool)
    ensures var s := RecommendationSlider(rec, dark);
      var low := ToLower(rec);
      var strongBuy, buy, wait, na := Contains(low, "strong buy"), Contains(low, "buy"), Contains(low, "wait"), ToUpper(rec) == "N/A";
      var sell, strong, strongSell := Contains(low, "sell"), Contains(low, "strong"), Contains(low, "strong sell");
      && (s.position == 95 <==> strongBuy)
      && (s.position == 75 <==> !strongBuy && buy)
      && (s.position >= 75 <==> buy)
      && (!buy && (wait || na) ==> s == Slider(50, DefaultColour(dark), StableLabel))
      && (s.position == 25 <==> !buy && !wait && !na && sell && !strong)
      && (s.position == 5 <==> strongSell && !buy && !wait)
      && (!buy && !wait && !na && !(sell && !strong) && !strongSell ==> s == Slider(50, DefaultColour(dark), rec))
  {
    var low := ToLower(rec);
    if Contains(low, "strong buy") {
      BuyInStrongBuy(low);
    }
    if Contains(low, "strong sell") {
      StrongInStrongSell(low);
      UpperIsNotNA(rec);
    }
  }

  /** A text containing "strong buy" contains "buy". */
  lemma BuyInStrongBuy(s: string)
    requires Contains(s, "strong buy")
    ensures Contains(s, "buy")
  {
    var i := IndexOf(s, "strong buy");
    assert s[i + 7..i + 10] == "strong buy"[7..];
    assert OccursAt(s, "buy", i + 7);
  }

  /** A text containing "strong sell" contains "strong" and is longer than three characters. */
  lemma StrongInStrongSell(s: string)
    requires Contains(s, "strong sell")
    ensures Contains(s, "strong") && |s| > 3
  {
    var i := IndexOf(s, "strong sell");
    assert s[i..i + 6] == "strong sell"[..6];
    assert OccursAt(s, "strong", i);
  }

  /** A character of `t` missing from `s` shows that `t` does not occur in `s`. */
  lemma MissingChar(s: string, t: string, c: char)
    requires c in t && c !in s
    ensures !Contains(s, t)
  {
  }

  /** `t` occurs at the start of `s`. */
  lemma Prefix(s: string, t: string)
    requires |t| <= |s| && s[..|t|] == t
    ensures Contains(s, t)
  {
    OccursContains(s, t, 0);
  }

  /** `s` lower-cases to `t`, checked character by character. */
  lemma LowerOf(s: string, t: string)
    requires |s| == |t| && forall i :: 0 <= i < |s| ==> LowerChar(s[i]) == t[i]
    ensures ToLower(s) == t
  {
  }

  /**
   * The backend's five signals land on strictly falling positions in their
   * own order, from "Strong Buy" at 95 down to "Strong Sell" at 5, each with
   * its own label; the backend's "N/A" lands in the middle as "Stable".
   */
  lemma SignalNames()
    ensures Backend.Signals[0] == "Strong Buy" && Backend.Signals[1] == "Buy"
    ensures Backend.Signals[2] == "Wait" && Backend.Signals[3] == "Sell"
    ensures Backend.Signals[4] == "Strong Sell"
  {
  }

  lemma SignalPositions(dark: bool)
    ensures RecommendationSlider(Backend.Signals[0], dark) == Slider(95, "#10b981", StrongBuyLabel)
    ensures RecommendationSlider(Backend.Signals[1], dark) == Slider(75, "#34d399", BuyLabel)
    ensures RecommendationSlider(Backend.Signals[2], dark) == Slider(50, DefaultColour(dark), StableLabel)
    ensures RecommendationSlider(Backend.Signals[3], dark) == Slider(25, "#f59e0b", SellLabel)
    ensures RecommendationSlider(Backend.Signals[4], dark) == Slider(5, "#ef4444", StrongSellLabel)
    ensures RecommendationSlider("N/A", dark) == Slider(50, DefaultColour(dark), StableLabel)
  {
    SignalNames();
    StrongBuySlider(dark);
    BuySlider(dark);
    WaitSlider(dark);
    SellSlider(dark);
    StrongSellSlider(dark);
    NotApplicableSlider(dark);
  }

  lemma StrongBuySlider(dark: bool)
    ensures RecommendationSlider("Strong Buy", dark) == Slider(95, "#10b981", StrongBuyLabel)
  {
    var low := "strong buy";
    LowerOf("Strong Buy", low);
    Prefix(low, low);
    StrongBuyRule("Strong Buy", low, dark);
  }

  /** Text whose lower-case form holds "strong buy" is at 95. */
  lemma StrongBuyRule(rec: string, low: string, dark: bool)
    requires ToLower(rec) == low && Contains(low, "strong buy")
    ensures RecommendationSlider(rec, dark) == Slider(95, "#10b981", StrongBuyLabel)
  {
  }

  lemma BuySlider(dark: bool)
    ensures RecommendationSlider("Buy", dark) == Slider(75, "#34d399", BuyLabel)
  {
    LowerOf("Buy", "buy");
    MissingChar("buy", "strong buy", 's');
    Prefix("buy", "buy");
  }

  lemma WaitSlider(dark: bool)
    ensures RecommendationSlider("Wait", dark) == Slider(50, DefaultColour(dark), StableLabel)
  {
    LowerOf("Wait", "wait");
    MissingChar("wait", "strong buy", 's');
    MissingChar("wait", "buy", 'b');
    Prefix("wait", "wait");
  }

  lemma SellSlider(dark: bool)
    ensures RecommendationSlider("Sell", dark) == Slider(25, "#f59e0b", SellLabel)
  {
    LowerOf("Sell", "sell");
    MissingChar("sell", "strong buy", 't');
    MissingChar("sell", "buy", 'b');
    MissingChar("sell", "wait", 'w');
    MissingChar("sell", "strong", 't');
    Prefix("sell", "sell");
  }

  lemma StrongSellSlider(dark: bool)
    ensures RecommendationSlider("Strong Sell", dark) == Slider(5, "#ef4444", StrongSellLabel)
  {
    var low := "strong sell";
    LowerOf("Strong Sell", low);
    StrongSellText(low);
    UpperIsNotNA("Strong Sell");
    StrongSellRule("Strong Sell", low, dark);
  }

  /** What the rule chain looks for in the lower-cased signal "strong sell". */
  lemma StrongSellText(low: string)
    requires low == "strong sell"
    ensures Contains(low, "strong sell") && Contains(low, "strong")
    ensures !Contains(low, "buy") && !Contains(low, "wait")
  {
    MissingChar(low, "buy", 'b');
    MissingChar(low, "wait", 'w');
    Prefix(low, "strong");
    Prefix(low, low);
  }

  /** Text of any length other than three never upper-cases to "N/A". */
  lemma UpperIsNotNA(rec: string)
    requires |rec| != 3
    ensures ToUpper(rec) != "N/A"
  {
  }

  /** Text with "strong sell" and neither "buy" nor "wait" is at 5. */
  lemma StrongSellRule(rec: string, low: string, dark: bool)
    requires ToLower(rec) == low
    requires Contains(low, "strong sell") && Contains(low, "strong")
    requires !Contains(low, "buy") && !Contains(low, "wait") && ToUpper(rec) != "N/A"
    ensures RecommendationSlider(rec, dark) == Slider(5, "#ef4444", StrongSellLabel)
  {
    if Contains(low, "strong buy") {
      BuyInStrongBuy(low);
    }
  }

  lemma NotApplicableSlider(dark: bool)
    ensures RecommendationSlider("N/A", dark) == Slider(50, DefaultColour(dark), StableLabel)
  {
    LowerOf("N/A", "n/a");
    MissingChar("n/a", "strong buy", 's');
    MissingChar("n/a", "buy", 'b');
    MissingChar("n/a", "wait", 'w');
  }

  /** The recommendation part of the card: hidden without a recommendation, else the slider and an optional note. */
  datatype RecommendationView = RecommendationHidden | RecommendationShown(slider: Slider, note: Option<string>)

  /** The note under the slider: the error when there is one, else a fixed text for "N/A". */
  function RecommendationNote(rec: string, recError: string): (note: Option<string>)
    ensures note.Some? <==> recError != "" || ToUpper(rec) == "N/A"
    ensures recError != "" ==> note == Some(recError)
  {
    if recError != "" || ToUpper(rec) == "N/A" then Some(Or(recError, "Signal not available.")) else None
  }

  function RecommendationPanel(rec: string, recError: string, dark: bool): (v: RecommendationView)
    ensures v.RecommendationShown? <==> rec != ""
  {
    if rec == "" then RecommendationHidden
    else RecommendationShown(RecommendationSlider(rec, dark), RecommendationNote(rec, recError))
  }

  /**
   * Whatever the backend returns as `(recommendation, recommendation_error)`
   * is shown, on one of the five positions, with a note exactly when the
   * backend reported an error: every "N/A" comes with its error message.
   */
  lemma PanelOfRecommendation(reply: Backend.SignalReply, dark: bool)
    ensures var r := Backend.Recommend(reply);
      var v := RecommendationPanel(r.signal, r.error.GetOr(""), dark);
      && v.RecommendationShown?
      && (v.note.Some? <==> r.error.Some?)
      && (r.error.Some? ==> v.note == r.error)
  {
    var r := Backend.Recommend(reply);
    Backend.RecommendSpec(reply);
    Backend.ErrorsAreNonEmpty(reply);
    NotApplicableUpper();
    SignalsAreNotNA();
  }

  /** No signal is empty or reads as "N/A" in upper case. */
  lemma SignalsAreNotNA()
    ensures forall signal :: signal in Backend.Signals ==> signal != "" && ToUpper(signal) != "N/A"
  {
    forall signal | signal in Backend.Signals
      ensures signal != "" && ToUpper(signal) != "N/A"
    {
      if signal == "Buy" {
        assert ToUpper(signal)[0] == 'B';
      } else {
        assert |signal| != 3;
      }
    }
  }

  lemma NotApplicableUpper()
    ensures ToUpper("N/A") == "N/A"
  {
    assert |ToUpper("N/A")| == 3;
  }

  /** The badge next to the company name. */
  datatype Badge = NoBadge | TickerBadge(symbol: string) | PrivateBadge

  /** Placeholders that read as "private". */
  const PrivateTickers := {"PRIVATE", "UNKNOWN"}

  function TickerBadgeOf(ticker: string): (b: Badge)
  {
    var up := ToUpper(ticker);
    if ticker != "" && up != "PRIVATE" && up != "UNKNOWN" && Trim(ticker, JsSpaces) != "" && up != "N/A" then TickerBadge(up)
    else if ticker != "" && (up == "PRIVATE" || up == "UNKNOWN") then PrivateBadge
    else NoBadge
  }

  /**
   * A ticker badge appears exactly for the tickers the backend would look
   * up stock data for, less the blank ones, and shows the ticker in upper
   * case; the private placeholders give "Private"; anything else, "N/A"
   * included, hides the badge.
   */
  lemma TickerBadgeSpec(ticker: string)
    ensures TickerBadgeOf(ticker).TickerBadge? <==> Backend.StockEligible(ticker) && !IsBlank(ticker, JsSpaces)
    ensures TickerBadgeOf(ticker).TickerBadge? ==> TickerBadgeOf(ticker).symbol == ToUpper(ticker)
    ensures TickerBadgeOf(ticker) == PrivateBadge <==> ToUpper(ticker) in PrivateTickers
    ensures TickerBadgeOf(ticker) == NoBadge <==> IsBlank(ticker, JsSpaces) || ToUpper(ticker) == "N/A"
  {
    var up := ToUpper(ticker);
    BlankUpper(ticker, up);
    TickerBadgeCases(ticker, up, ticker == "", IsBlank(ticker, JsSpaces));
  }

  /** The badge decision, with the upper-case form and the blank tests as plain values. */
  lemma TickerBadgeCases(ticker: string, up: string, empty: bool, blank: bool)
    requires up == ToUpper(ticker) && empty == (ticker == "") && blank == IsBlank(ticker, JsSpaces)
    requires empty <==> up == ""
    requires empty ==> blank
    ensures TickerBadgeOf(ticker).TickerBadge? <==> !empty && up !in Backend.NoStockTickers && !blank
    ensures TickerBadgeOf(ticker).TickerBadge? ==> TickerBadgeOf(ticker).symbol == up
    ensures TickerBadgeOf(ticker) == PrivateBadge <==> up in PrivateTickers
    ensures TickerBadgeOf(ticker) == NoBadge <==> blank || up == "N/A"
  {

  }

  /** The empty ticker is blank and upper-cases to the empty text; a non-empty one does not. */
  lemma BlankUpper(ticker: string, up: string)
    requires up == ToUpper(ticker)
    ensures ticker == "" <==> up == ""
    ensures ticker == "" ==> IsBlank(ticker, JsSpaces)
  {
  }

  /** The stock section of the card. */
  datatype StockView = Vitals | StockNotice(text: string)

  /** With stock data the vitals show; otherwise a notice that depends on the ticker. */
  function StockSection(hasStockData: bool, ticker: string, stockError: string): (v: StockView)
  {
    if hasStockData then Vitals
    else if ticker != "" && ToUpper(ticker) !in PrivateTickers then StockNotice(Or(stockError, "Stock data currently unavailable."))
    else StockNotice("Stock info N/A (e.g., private).")
  }

  /**
   * Without stock data, a card with a ticker badge shows the stock error
   * (or "unavailable"), and a "Private" card the private notice. A ticker
   * of "N/A" hides the badge but still gets the "unavailable" notice.
   */
  lemma StockSectionSpec(ticker: string, stockError: string)
    ensures TickerBadgeOf(ticker).TickerBadge? ==> StockSection(false, ticker, stockError) == StockNotice(Or(stockError, "Stock data currently unavailable."))
    ensures TickerBadgeOf(ticker) == PrivateBadge ==> StockSection(false, ticker, stockError) == StockNotice("Stock info N/A (e.g., private).")
    ensures ToUpper(ticker) == "N/A" ==> TickerBadgeOf(ticker) == NoBadge && StockSection(false, ticker, stockError) == StockNotice(Or(stockError, "Stock data currently unavailable."))
    ensures forall data :: StockSection(data, ticker, stockError) == Vitals <==> data
  {
    TickerBadgeSpec(ticker);
    if ToUpper(ticker) == "N/A" {
      assert ticker != "";
    }
  }
}
