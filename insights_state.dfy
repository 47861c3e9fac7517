/**
 * The values behind the insights panel: a watched company's loading,
 * data and error slot, the product-analysis buffer, the responses of
 * `/api/company_profile` and `/api/analyze_product_image` as the browser
 * sees them, the rules of the watchlist editor's "add" box, and
 * `Array.prototype.splice` with a delete count of one.
 */
module InsightsState {
  import opened Wrappers
  import opened Text

  /**
   * A decoded JSON object: its string-valued members, and the keys of its
   * other members, whose values the handlers never read. A missing member
   * (and one that is not a string) reads as "".
   */
  datatype Payload = Payload(members: map<string, string>, otherKeys: set<string>) {
    function Get(key: string): string {
      if key in members then members[key] else ""
    }

    /** `Object.keys(body).length === 0`. */
    predicate IsEmpty() {
      |members| == 0 && |otherKeys| == 0
    }
  }

  // ---------------------------------------------------------------------------
  // Watched companies
  // ---------------------------------------------------------------------------

  /** One entry of `watchedCompanies`: `{ name, data, isLoading, error }`. */
  datatype CompanyState = CompanyState(name: string, data: Option<Payload>, isLoading: bool, error: Option<string>)

  /** The entry created for a name the list did not hold. */
  function NewCompany(name: string): CompanyState {
    CompanyState(name, None, false, None)
  }

  /** `loadWatchedCompaniesWithDelay` fetches an entry with no data, no error and no request in flight. */
  predicate NeedsFetch(c: CompanyState) {
    c.data.None? && c.error.None? && !c.isLoading
  }

  /** What `fetch('/api/company_profile')` gives the browser. */
  datatype ProfileResponse =
    | ProfileUnreachable(reason: string)
      /**
       * The body was not JSON; `text` is the body text, None when reading it
       * failed too. In a browser the failed `json()` has already consumed the
       * body, so `text()` fails as well and `text` is always None there.
       */
    | ProfileUnreadable(status: nat, text: Option<string>)
    | ProfileReply(status: nat, ok: bool, body: Payload)

  const UnparseableBody := "Unparseable server response."

  /** The message thrown for a response, None for a usable profile. */
  function ProfileFailure(name: string, resp: ProfileResponse): Option<string> {
    match resp
    case ProfileUnreachable(reason) =>
      Some("Network error or server unreachable: " + reason)
    case ProfileUnreadable(status, text) =>
      Some("API Error (" + NatToString(status) + "): " + text.GetOr(UnparseableBody))
    case ProfileReply(status, ok, body) =>
      if !ok then
        Some(Or(body.Get("error"), Or(body.Get("detail"),
          "Failed to load profile for \"" + name + "\" (Status: " + NatToString(status) + ")")))
      else if body.IsEmpty() then
        Some("Server returned an empty or invalid profile for \"" + name + "\".")
      else None
  }

  /** `fetchCompanyProfile` before its request: an entry without a name is left alone. */
  function StartProfile(c: CompanyState): CompanyState {
    if c.name == "" then c else c.(isLoading := true, error := None, data := None)
  }

  /** `fetchCompanyProfile` after its request: store the profile or the error, and clear the flag. */
  function FinishProfile(c: CompanyState, resp: ProfileResponse): CompanyState {
    match ProfileFailure(c.name, resp)
    case None => c.(data := Some(resp.body), error := None, isLoading := false)
    case Some(message) => c.(error := Some(Or(message, "Could not load profile for \"" + c.name + "\".")), isLoading := false)
  }

  /** A whole `fetchCompanyProfile` call. */
  function FetchProfile(c: CompanyState, resp: ProfileResponse): CompanyState {
    if c.name == "" then c else FinishProfile(StartProfile(c), resp)
  }

  /** The response is a usable profile: an ok reply with a non-empty body. */
  predicate ProfileUsable(resp: ProfileResponse) {
    resp.ProfileReply? && resp.ok && !resp.body.IsEmpty()
  }

  /**
   * A completed fetch leaves the entry idle with exactly one of data and
   * error: the body of a usable response, else a non-empty message (the
   * data cleared at the start stays cleared). The name never changes.
   */
  lemma FetchProfileSpec(c: CompanyState, resp: ProfileResponse)
    requires c.name != ""
    ensures var r := FetchProfile(c, resp);
      && r.name == c.name
      && !r.isLoading
      && (r.data.Some? <==> r.error.None?)
      && (r.data.Some? <==> ProfileUsable(resp))
      && (r.data.Some? ==> r.data.value == resp.body)
      && (r.error.Some? ==> r.error.value != "")
  {
    assert ProfileFailure(c.name, resp).None? <==> ProfileUsable(resp);
  }

  /** Starting a fetch raises the flag and clears both slots. */
  lemma StartProfileSpec(c: CompanyState)
    requires c.name != ""
    ensures StartProfile(c) == CompanyState(c.name, None, true, None)
  {
  }

  /** Only the last of two fetches of one entry shows: a fetch forgets what the entry held before. */
  lemma FetchProfileLastWins(c: CompanyState, r1: ProfileResponse, r2: ProfileResponse)
    ensures FetchProfile(FetchProfile(c, r1), r2) == FetchProfile(c, r2)
  {
  }

  /** An entry is never selected again once a fetch of it completed. */
  lemma FetchedNotPending(c: CompanyState, resp: ProfileResponse)
    requires c.name != ""
    ensures !NeedsFetch(FetchProfile(c, resp))
  {
    FetchProfileSpec(c, resp);
  }

  // ---------------------------------------------------------------------------
  // The watchlist editor
  // ---------------------------------------------------------------------------

  /** `/^\d+$/`: one or more ASCII digits and nothing else. */
  predicate AllDigits(s: string) {
    |s| > 0 && forall i :: 0 <= i < |s| ==> '0' <= s[i] <= '9'
  }

  /** Some name of the list equals `x` after lower-casing both. */
  predicate HasIgnoreCase(names: seq<string>, x: string) {
    exists i :: 0 <= i < |names| && EqualsIgnoreCase(names[i], x)
  }

  /** No two names of the list are equal after lower-casing. */
  predicate DistinctIgnoreCase(names: seq<string>) {
    forall i, j :: 0 <= i < j < |names| ==> !EqualsIgnoreCase(names[i], names[j])
  }

  const EnterName := "Please enter a company name."
  const InvalidName := "Please enter a valid company name (2-70 characters, not just numbers)."

  function AlreadyListed(name: string): string {
    "\"" + name + "\" is already in your list."
  }

  /** The verdict of the "add" box. */
  datatype AddVerdict = Accepted(name: string) | Rejected(message: string)

  /** `handleAddCompanyToModal`'s three checks, in the order the handler makes them. */
  function CheckNewName(temp: seq<string>, input: string): (v: AddVerdict) {
    var name := Trim(input, JsSpaces);
    if name == "" then Rejected(EnterName)
    else if HasIgnoreCase(temp, name) then Rejected(AlreadyListed(name))
    else if |name| > 70 || |name| < 2 || AllDigits(name) then Rejected(InvalidName)
    else Accepted(name)
  }

  /**
   * A name is accepted exactly when its trimmed form is 2 to 70 characters,
   * not all digits, and not already in the list in any case; then it is the
   * trimmed input. Each rejection carries its own message.
   */
  lemma CheckNewNameSpec(temp: seq<string>, input: string)
    ensures var name := Trim(input, JsSpaces);
      && (CheckNewName(temp, input).Accepted? <==>
           2 <= |name| <= 70 && !AllDigits(name) && !HasIgnoreCase(temp, name))
      && (CheckNewName(temp, input).Accepted? ==> CheckNewName(temp, input).name == name)
      && (name == "" ==> CheckNewName(temp, input) == Rejected(EnterName))
      && (name != "" && HasIgnoreCase(temp, name) ==> CheckNewName(temp, input) == Rejected(AlreadyListed(name)))
      && (name != "" && !HasIgnoreCase(temp, name) && CheckNewName(temp, input).Rejected? ==> CheckNewName(temp, input) == Rejected(InvalidName))
  {
  }

  /** Appending a name the list does not hold in any case keeps it free of repeats. */
  lemma AppendKeepsDistinct(names: seq<string>, name: string)
    requires DistinctIgnoreCase(names) && !HasIgnoreCase(names, name)
    ensures DistinctIgnoreCase(names + [name])
  {
    var t := names + [name];
    forall i, j | 0 <= i < j < |t|
      ensures !EqualsIgnoreCase(t[i], t[j])
    {
      if j == |names| {
        assert t[i] == names[i] && t[j] == name;
      }
    }
  }

  /** Accepting a name keeps the list free of case-insensitive repeats. */
  lemma AcceptKeepsDistinct(temp: seq<string>, input: string)
    requires DistinctIgnoreCase(temp)
    requires CheckNewName(temp, input).Accepted?
    ensures DistinctIgnoreCase(temp + [CheckNewName(temp, input).name])
  {
    AppendKeepsDistinct(temp, CheckNewName(temp, input).name);
  }

  /** `splice(index, 1)`'s start position: negative counts from the end, and both ends clamp. */
  function SpliceStart(len: nat, index: int): (k: nat)
    ensures k <= len
  {
    if index < 0 then (if len + index < 0 then 0 else len + index)
    else if index > len then len
    else index
  }

  /** `names.splice(index, 1)`: remove the element at the start position, if there is one. */
  function RemoveAt(names: seq<string>, index: int): (r: seq<string>) {
    var k := SpliceStart(|names|, index);
    if k < |names| then names[..k] + names[k + 1..] else names
  }

  /**
   * Removing at a valid index deletes exactly that element and keeps the
   * others in order; an index past the end changes nothing.
   */
  lemma RemoveAtSpec(names: seq<string>, index: int)
    ensures 0 <= index < |names| ==>
      && |RemoveAt(names, index)| == |names| - 1
      && (forall j :: 0 <= j < index ==> RemoveAt(names, index)[j] == names[j])
      && (forall j :: index <= j < |names| - 1 ==> RemoveAt(names, index)[j] == names[j + 1])
      && multiset(RemoveAt(names, index)) + multiset{names[index]} == multiset(names)
    ensures index >= |names| ==> RemoveAt(names, index) == names
  {
    if 0 <= index < |names| {
      assert names == names[..index] + [names[index]] + names[index + 1..];
    }
  }

  /** Removing an element keeps a repeat-free list repeat-free. */
  lemma RemoveKeepsDistinct(names: seq<string>, index: int)
    requires DistinctIgnoreCase(names)
    ensures DistinctIgnoreCase(RemoveAt(names, index))
  {
    var k := SpliceStart(|names|, index);
    if k < |names| {
      var r := RemoveAt(names, index);
      assert r == RemoveAt(names, k);
      RemoveAtSpec(names, k);
      forall i, j | 0 <= i < j < |r|
        ensures !EqualsIgnoreCase(r[i], r[j])
      {
        var i' := if i < k then i else i + 1;
        var j' := if j < k then j else j + 1;
        assert r[i] == names[i'] && r[j] == names[j'];
      }
    }
  }

  // ---------------------------------------------------------------------------
  // Product analysis
  // ---------------------------------------------------------------------------

  /** `productAnalysis`: identified product and company ("" for null), the response body, flag and error. */
  datatype AnalysisState = AnalysisState(product: string, company: string, data: Option<Payload>, isLoading: bool, error: Option<string>)

  function NoAnalysis(): AnalysisState {
    AnalysisState("", "", None, false, None)
  }

  /** What `fetch('/api/analyze_product_image')` gives the browser. */
  datatype AnalysisResponse =
    | AnalysisUnreachable(message: string)
      /** As `ProfileUnreadable`: in a browser `text` is always None. */
    | AnalysisUnreadable(status: nat, text: Option<string>)
    | AnalysisReply(status: nat, ok: bool, body: Payload)

  const NoImage := "No image selected or captured to analyze."
  const AnalysisFailed := "Failed to analyze product image."

  /** `analyzeProductImage` before its request: without a picture only the error is set. */
  function BeginAnalysis(s: AnalysisState, hasImage: bool): AnalysisState {
    if !hasImage then s.(error := Some(NoImage))
    else AnalysisState("", "", None, true, None)
  }

  /** A 404 that still names the product, with an "unknown" company. */
  predicate ProductWithoutCompany(status: nat, body: Payload) {
    status == 404 && body.Get("identified_product") != "" && ToLower(body.Get("identified_company")) == "unknown"
  }

  /** The `catch` block: keep an error already recorded, else record this one. */
  function Fail(s: AnalysisState, message: string): AnalysisState {
    if s.error.Some? && s.error.value != "" then s else s.(error := Some(Or(message, AnalysisFailed)))
  }

  /** `analyzeProductImage` after its request: store what was identified, or the error; clear the flag. */
  function FinishAnalysis(s: AnalysisState, resp: AnalysisResponse): AnalysisState {
    var r := match resp
      case AnalysisUnreachable(message) => Fail(s, message)
      case AnalysisUnreadable(status, text) =>
        Fail(s, "Analysis API Error (" + NatToString(status) + "): " + text.GetOr(UnparseableBody))
      case AnalysisReply(status, ok, body) =>
        var product := body.Get("identified_product");
        var company := body.Get("identified_company");
        if ok then s.(product := product, company := company, data := Some(body))
        else if ProductWithoutCompany(status, body) then
          s.(product := product, company := company, data := Some(body),
             error := Some(Or(body.Get("error"), "Found: " + product + ", but couldn't identify the parent company.")))
        else Fail(s, Or(body.Get("error"), Or(body.Get("detail"), "Product analysis failed (Status: " + NatToString(status) + ")")));
    r.(isLoading := false)
  }

  /** An ok reply: the buffer holds what the server identified, with no error. */
  predicate AnalysisOk(resp: AnalysisResponse) {
    resp.AnalysisReply? && resp.ok
  }

  /**
   * A started analysis ends idle. An ok reply fills product, company and
   * data with no error; a 404 naming the product but an "unknown" company
   * keeps the product and data and also records an error; every other
   * response records a non-empty error and leaves product, company and
   * data cleared.
   */
  lemma AnalyzeSpec(s: AnalysisState, resp: AnalysisResponse)
    ensures var r := FinishAnalysis(BeginAnalysis(s, true), resp);
      && !r.isLoading
      && (r.error.None? <==> AnalysisOk(resp))
      && (r.error.Some? ==> r.error.value != "")
      && (r.data.Some? <==> AnalysisOk(resp) || (resp.AnalysisReply? && ProductWithoutCompany(resp.status, resp.body)))
      && (r.data.Some? ==>
            r.data.value == resp.body && r.product == resp.body.Get("identified_product") && r.company == resp.body.Get("identified_company"))
      && (r.data.None? ==> r.product == "" && r.company == "")
  {
  }

  /** Without a picture nothing but the error changes, and no request is made. */
  lemma NoImageSpec(s: AnalysisState)
    ensures BeginAnalysis(s, false).error == Some(NoImage)
    ensures BeginAnalysis(s, false).(error := s.error) == s
  {
  }

  // ---------------------------------------------------------------------------
  // "Add to watchlist" on the analysis card
  // ---------------------------------------------------------------------------

  /** The analyzer's button does nothing for an empty or "unknown" name, or one already watched. */
  predicate AnalyzerSkips(name: string, watchedNames: seq<string>) {
    name == "" || ToLower(name) == "unknown" || HasIgnoreCase(watchedNames, name)
  }

  /** The entry the analyzer's button appends: it takes the analysis data when the analysed company is this name. */
  function AnalyzerEntry(name: string, a: AnalysisState): CompanyState {
    var reuse := a.company == name;
    CompanyState(name, if reuse then a.data else None, !(reuse && a.data.Some?), None)
  }

  /** The appended entry once `fetchCompanyProfile` has started on it when it came without data. */
  function AnalyzerAdded(name: string, a: AnalysisState): CompanyState {
    var entry := AnalyzerEntry(name, a);
    if entry.data.None? then StartProfile(entry) else entry
  }

  /**
   * The appended entry has the button's name. It holds the analysis data
   * exactly when the analysed company is that name and data is present;
   * then no fetch starts. Otherwise its fetch has started. Either way the
   * new name keeps a repeat-free list repeat-free.
   */
  lemma AnalyzerAddedSpec(name: string, a: AnalysisState, watchedNames: seq<string>)
    requires !AnalyzerSkips(name, watchedNames)
    ensures var c := AnalyzerAdded(name, a);
      && c.name == name
      && (c.data.Some? <==> a.company == name && a.data.Some?)
      && (c.data.Some? ==> c.data == a.data && !c.isLoading && c.error.None?)
      && (c.data.None? ==> c == StartProfile(NewCompany(name)))
    ensures DistinctIgnoreCase(watchedNames) ==> DistinctIgnoreCase(watchedNames + [name])
  {
    if DistinctIgnoreCase(watchedNames) {
      AppendKeepsDistinct(watchedNames, name);
    }
  }
}
