/**
 * The insights panel's mutable state: the watched company objects, which
 * `fetchCompanyProfile` updates in place, the product-analysis buffer,
 * and the watchlist with the editor's working copy of the names. Each
 * handler is proved to leave the state that the matching function of
 * `InsightsState` computes.
 */
module Insights {
  import opened Wrappers
  import opened Text
  import opened InsightsState

  /** An entry of `watchedCompanies`; the list and the fetch loop share the object. */
  class Company {
    var name: string
    var data: Option<Payload>
    var isLoading: bool
    var error: Option<string>

    function State(): CompanyState
      reads this
    {
      CompanyState(name, data, isLoading, error)
    }

    constructor (name: string, data: Option<Payload>, isLoading: bool)
      ensures State() == CompanyState(name, data, isLoading, None)
    {
      this.name := name;
      this.data := data;
      this.isLoading := isLoading;
      this.error := None;
    }

    /** `fetchCompanyProfile` up to its request; nothing is sent for an entry without a name. */
    method BeginFetch() returns (sent: bool)
      modifies this
      ensures sent <==> old(name) != ""
      ensures State() == StartProfile(old(State()))
    {
      sent := name != "";
      if sent {
        isLoading, error, data := true, None, None;
      }
    }

    /** `fetchCompanyProfile` after its request: the `try`, `catch` and `finally` blocks. */
    method CompleteFetch(resp: ProfileResponse)
      modifies this
      ensures State() == FinishProfile(old(State()), resp)
    {
      var failure := ProfileFailure(name, resp);
      if failure.None? {
        data, error := Some(resp.body), None;
      } else {
        error := Some(Or(failure.value, "Could not load profile for \"" + name + "\"."));
      }
      isLoading := false;
    }
  }

  /** `productAnalysis`, without the image preview. */
  class ProductAnalysis {
    var product: string
    var company: string
    var data: Option<Payload>
    var isLoading: bool
    var error: Option<string>

    function State(): AnalysisState
      reads this
    {
      AnalysisState(product, company, data, isLoading, error)
    }

    constructor ()
      ensures State() == NoAnalysis()
    {
      product, company, data, isLoading, error := "", "", None, false, None;
    }

    /** `analyzeProductImage` up to its request; `hasImage` says whether a file was selected or captured. */
    method Begin(hasImage: bool) returns (sent: bool)
      modifies this
      ensures sent == hasImage
      ensures State() == BeginAnalysis(old(State()), hasImage)
    {
      sent := hasImage;
      if !hasImage {
        error := Some(NoImage);
      } else {
        Clear();
        isLoading := true;
      }
    }

    /** Empty the buffer before a request. */
    method Clear()
      modifies this
      ensures State() == old(State()).(product := "", company := "", data := None, error := None)
    {
      product, company := "", "";
      data, error := None, None;
    }

    /** Store what the server identified. */
    method Identify(body: Payload)
      modifies this
      ensures State() == old(State()).(product := body.Get("identified_product"), company := body.Get("identified_company"), data := Some(body))
    {
      product, company := body.Get("identified_product"), body.Get("identified_company");
      data := Some(body);
    }

    /** The `catch` block: an error already recorded stays. */
    method Catch(message: string)
      modifies this
      ensures State() == Fail(old(State()), message)
    {
      if error.None? || error.value == "" {
        error := Some(Or(message, AnalysisFailed));
      }
    }

    /** `analyzeProductImage` after its request. */
    method Complete(resp: AnalysisResponse)
      modifies this
      ensures State() == FinishAnalysis(old(State()), resp)
    {
      match resp {
        case AnalysisUnreachable(message) =>
          Catch(message);
        case AnalysisUnreadable(status, text) =>
          Catch("Analysis API Error (" + NatToString(status) + "): " + text.GetOr(UnparseableBody));
        case AnalysisReply(status, ok, body) =>
          if ok {
            Identify(body);
          } else if ProductWithoutCompany(status, body) {
            Identify(body);
            error := Some(Or(body.Get("error"), "Found: " + body.Get("identified_product") + ", but couldn't identify the parent company."));
          } else {
            Catch(Or(body.Get("error"), Or(body.Get("detail"), "Product analysis failed (Status: " + NatToString(status) + ")")));
          }
      }
      isLoading := false;
    }
  }

  /** The names of a list of companies, in order. */
  function NamesOf(cs: seq<Company>): (r: seq<string>)
    reads cs
    ensures |r| == |cs| && forall i :: 0 <= i < |cs| ==> r[i] == cs[i].name
  {
    if cs == [] then [] else NamesOf(cs[..|cs| - 1]) + [cs[|cs| - 1].name]
  }

  /** `new Map(watchedCompanies.map(c => [c.name.toLowerCase(), c]))`: a later entry overwrites an earlier one. */
  function NameIndex(cs: seq<Company>): (r: map<string, Company>)
    reads cs
  {
    if cs == [] then map[]
    else
      var init := NameIndex(cs[..|cs| - 1]);
      init[ToLower(cs[|cs| - 1].name) := cs[|cs| - 1]]
  }

  /** The last company of the list whose lower-cased name is `key`. */
  function LastNamed(cs: seq<Company>, key: string): (r: Option<Company>)
    reads cs
    ensures r.Some? ==> r.value in cs && ToLower(r.value.name) == key
    ensures r.None? <==> forall c :: c in cs ==> ToLower(c.name) != key
  {
    if cs == [] then None
    else if ToLower(cs[|cs| - 1].name) == key then Some(cs[|cs| - 1])
    else
      assert forall c :: c in cs ==> c in cs[..|cs| - 1] || c == cs[|cs| - 1];
      LastNamed(cs[..|cs| - 1], key)
  }

  /** The map lookup finds the last company of that lower-cased name. */
  lemma {:induction false} NameIndexLastWins(cs: seq<Company>, key: string)
    ensures key in NameIndex(cs) <==> LastNamed(cs, key).Some?
    ensures key in NameIndex(cs) ==> NameIndex(cs)[key] == LastNamed(cs, key).value
  {
    if cs != [] {
      NameIndexLastWins(cs[..|cs| - 1], key);
    }
  }

  /** The entries `loadWatchedCompaniesWithDelay` fetches, in list order. */
  function PendingOf(cs: seq<Company>): (r: seq<Company>)
    reads cs
    ensures |r| <= |cs|
    ensures forall c :: c in r ==> c in cs
  {
    if cs == [] then []
    else
      var rest := PendingOf(cs[..|cs| - 1]);
      assert forall c :: c in rest ==> c in cs;
      if NeedsFetch(cs[|cs| - 1].State()) then rest + [cs[|cs| - 1]] else rest
  }

  /** Exactly the entries with no data, no error and no request in flight are selected; the order is kept. */
  lemma {:induction false} PendingOfSpec(cs: seq<Company>)
    ensures forall c :: c in PendingOf(cs) <==> c in cs && NeedsFetch(c.State())
    ensures forall cs' :: PendingOf(cs + cs') == PendingOf(cs) + PendingOf(cs')
  {
    PendingOfMember(cs);
    forall cs': seq<Company>
      ensures PendingOf(cs + cs') == PendingOf(cs) + PendingOf(cs')
    {
      PendingOfAppend(cs, cs');
    }
  }

  lemma {:induction false} PendingOfMember(cs: seq<Company>)
    ensures forall c :: c in PendingOf(cs) <==> c in cs && NeedsFetch(c.State())
  {
    if cs != [] {
      var init := cs[..|cs| - 1];
      PendingOfMember(init);
      assert cs == init + [cs[|cs| - 1]];
    }
  }

  lemma {:induction false} PendingOfAppend(a: seq<Company>, b: seq<Company>)
    ensures PendingOf(a + b) == PendingOf(a) + PendingOf(b)
  {
    if b == [] {
      assert a + b == a;
    } else {
      var init := b[..|b| - 1];
      PendingOfAppend(a, init);
      assert (a + b)[..|a + b| - 1] == a + init;
      assert (a + b)[|a + b| - 1] == b[|b| - 1];
    }
  }

  /** The index of the last occurrence of `x`. */
  function LastIndexOf(s: seq<Company>, x: Company): (k: nat)
    requires x in s
    ensures k < |s| && s[k] == x && x !in s[k + 1..]
  {
    if s[|s| - 1] == x then |s| - 1
    else
      assert s == s[..|s| - 1] + [s[|s| - 1]];
      var k := LastIndexOf(s[..|s| - 1], x);
      assert s[k + 1..] == s[..|s| - 1][k + 1..] + [s[|s| - 1]];
      k
  }

  lemma LastIndexOfSnoc(s: seq<Company>, y: Company, x: Company)
    requires x in s + [y]
    ensures x == y ==> LastIndexOf(s + [y], x) == |s|
    ensures x != y ==> x in s && LastIndexOf(s + [y], x) == LastIndexOf(s, x)
  {
    assert (s + [y])[..|s|] == s;
  }

  /** The watchlist and the editor's working copy of its names. */
  class Watchlist {
    var watched: seq<Company>
    /** `tempWatchedCompanies`: the names shown in the editor. */
    var temp: seq<string>
    /** The message shown under the editor's "add" box. */
    var addError: Option<string>
    /** The names written to browser storage. */
    var saved: Option<seq<string>>

    /** The list the page starts with. */
    constructor ()
      ensures |watched| == 1 && fresh(watched[0]) && watched[0].State() == NewCompany("Apple")
      ensures temp == [] && addError.None? && saved.None?
    {
      var apple := new Company("Apple", None, false);
      watched := [apple];
      temp, addError, saved := [], None, None;
    }

    /** `openEditWatchedListModal`: the editor starts from the watched names. */
    method OpenEditor()
      modifies this
      ensures temp == NamesOf(watched) && addError.None?
      ensures watched == old(watched) && saved == old(saved)
    {
      temp := NamesOf(watched);
      addError := None;
    }

    /** `handleAddCompanyToModal`: append the trimmed name when it passes the checks, else show why not. */
    method AddCompany(input: string) returns (accepted: bool)
      modifies this
      ensures accepted == CheckNewName(old(temp), input).Accepted?
      ensures accepted ==> temp == old(temp) + [CheckNewName(old(temp), input).name] && addError.None?
      ensures !accepted ==> temp == old(temp) && addError == Some(CheckNewName(old(temp), input).message)
      ensures watched == old(watched) && saved == old(saved)
    {
      addError := None;
      match CheckNewName(temp, input) {
        case Accepted(name) =>
          temp := temp + [name];
          accepted := true;
        case Rejected(message) =>
          addError := Some(message);
          accepted := false;
      }
    }

    /** `handleRemoveWatchedItemFromModal`: `tempWatchedCompanies.splice(index, 1)`. */
    method RemoveWatchedItem(index: int)
      modifies this
      ensures temp == RemoveAt(old(temp), index)
      ensures watched == old(watched) && saved == old(saved) && addError == old(addError)
    {
      var k := SpliceStart(|temp|, index);
      if k < |temp| {
        temp := temp[..k] + temp[k + 1..];
      }
    }

    /** The lookup table of the current list, built entry by entry. */
    method IndexByName() returns (byName: map<string, Company>)
      ensures byName == NameIndex(watched)
    {
      byName := map[];
      var i := 0;
      while i < |watched|
        invariant 0 <= i <= |watched|
        invariant byName == NameIndex(watched[..i])
      {
        assert watched[..i + 1][..i] == watched[..i];
        byName := byName[ToLower(watched[i].name) := watched[i]];
        i := i + 1;
      }
      assert watched[..i] == watched;
    }

    /** The entry saved for an editor name: the current object of that lower-cased name, else a new one. */
    static method Resolve(byName: map<string, Company>, name: string) returns (c: Company)
      ensures ToLower(name) in byName ==> c == byName[ToLower(name)]
      ensures ToLower(name) !in byName ==> fresh(c) && c.State() == NewCompany(name)
    {
      var key := ToLower(name);
      if key in byName {
        c := byName[key];
      } else {
        c := new Company(name, None, false);
      }
    }

    /**
     * `handleSaveWatchedChanges`: the new list follows the editor's names in
     * order. A name whose lower-cased form is a key of the current list's
     * lookup table reuses that object; any other name gets a fresh entry.
     * The names are written to storage.
     */
    method SaveChanges()
      modifies this
      ensures |watched| == |temp|
      ensures forall i :: 0 <= i < |temp| && ToLower(temp[i]) in NameIndex(old(watched)) ==>
                watched[i] == NameIndex(old(watched))[ToLower(temp[i])]
      ensures forall i :: 0 <= i < |temp| && ToLower(temp[i]) !in NameIndex(old(watched)) ==>
                fresh(watched[i]) && watched[i].State() == NewCompany(temp[i])
      ensures saved == Some(NamesOf(watched))
      ensures temp == old(temp) && addError == old(addError)
    {
      var byName := IndexByName();
      var list := ResolveAll(byName, temp);
      Replace(list);
    }

    /** The entries for the editor's names, in order. */
    static method ResolveAll(byName: map<string, Company>, names: seq<string>) returns (list: seq<Company>)
      ensures |list| == |names|
      ensures forall i :: 0 <= i < |names| && ToLower(names[i]) in byName ==> list[i] == byName[ToLower(names[i])]
      ensures forall i :: 0 <= i < |names| && ToLower(names[i]) !in byName ==> fresh(list[i]) && list[i].State() == NewCompany(names[i])
    {
      list := [];
      var i := 0;
      while i < |names|
        invariant 0 <= i <= |names| && |list| == i
        invariant forall j :: 0 <= j < i && ToLower(names[j]) in byName ==> list[j] == byName[ToLower(names[j])]
        invariant forall j :: 0 <= j < i && ToLower(names[j]) !in byName ==> fresh(list[j]) && list[j].State() == NewCompany(names[j])
      {
        var c := Resolve(byName, names[i]);
        list := list + [c];
        i := i + 1;
      }
    }

    /** The saved list replaces the watched one, and its names are written to storage. */
    method Replace(list: seq<Company>)
      modifies this
      ensures watched == list && saved == Some(NamesOf(list))
      ensures temp == old(temp) && addError == old(addError)
    {
      watched := list;
      saved := Some(NamesOf(list));
    }

    /**
     * `loadWatchedCompaniesWithDelay`, one response per selected entry: the
     * entries selected at the start are fetched one after the other. Each
     * ends as a whole `fetchCompanyProfile` with the response of its last
     * turn leaves it; every other entry is untouched.
     */
    method LoadWatched(responses: seq<ProfileResponse>) returns (pending: seq<Company>)
      requires |responses| == |PendingOf(watched)|
      modifies watched
      ensures pending == old(PendingOf(watched))
      ensures forall c :: c in pending ==> c.State() == FetchProfile(old(c.State()), responses[LastIndexOf(pending, c)])
      ensures forall c :: c in watched && c !in pending ==> c.State() == old(c.State())
    {
      pending := PendingOf(watched);
      FetchAll(pending, responses);
    }

    /** The fetches of `loadWatchedCompaniesWithDelay`, in order; a repeated entry ends as its last fetch leaves it. */
    static method FetchAll(pending: seq<Company>, responses: seq<ProfileResponse>)
      requires |responses| == |pending|
      modifies set c | c in pending
      ensures forall c :: c in pending ==> c.State() == FetchProfile(old(c.State()), responses[LastIndexOf(pending, c)])
    {
      var k := 0;
      while k < |pending|
        invariant 0 <= k <= |pending|
        invariant forall c :: c in pending[..k] ==> c.State() == FetchProfile(old(c.State()), responses[LastIndexOf(pending[..k], c)])
        invariant forall c :: c in pending && c !in pending[..k] ==> c.State() == old(c.State())
      {
        var c := pending[k];
        FetchOne(c, responses[k]);
        forall x | x in pending[..k + 1]
          ensures x.State() == FetchProfile(old(x.State()), responses[LastIndexOf(pending[..k + 1], x)])
        {
          assert pending[..k + 1] == pending[..k] + [c];
          LastIndexOfSnoc(pending[..k], c, x);
          if x == c && c in pending[..k] {
            FetchProfileLastWins(old(c.State()), responses[LastIndexOf(pending[..k], c)], responses[k]);
          }
        }
        k := k + 1;
      }
      assert pending[..k] == pending;
    }

    /** One turn of the loop: a whole `fetchCompanyProfile` on one entry. */
    static method FetchOne(c: Company, resp: ProfileResponse)
      modifies c
      ensures c.State() == FetchProfile(old(c.State()), resp)
    {
      var sent := c.BeginFetch();
      if sent {
        c.CompleteFetch(resp);
      }
    }

    /**
     * `handleAddFromAnalyzerToWatchlist` for the button's company name: the
     * appended entry, if any, after its profile fetch has started when it
     * came without data.
     */
    method AddFromAnalyzer(name: string, analysis: ProductAnalysis) returns (added: Option<Company>)
      modifies this
      ensures AnalyzerSkips(name, NamesOf(old(watched))) ==> added.None? && watched == old(watched) && saved == old(saved)
      ensures !AnalyzerSkips(name, NamesOf(old(watched))) ==>
        && added.Some? && fresh(added.value)
        && watched == old(watched) + [added.value]
        && added.value.State() == AnalyzerAdded(name, analysis.State())
        && saved == Some(NamesOf(watched))
      ensures temp == old(temp) && addError == old(addError)
    {
      added := None;
      if !AnalyzerSkips(name, NamesOf(watched)) {
        var entry := NewEntry(name, analysis);
        Append(entry);
        StartIfEmpty(entry);
        added := Some(entry);
      }
    }

    /** The entry built from the button's name and the current analysis. */
    static method NewEntry(name: string, analysis: ProductAnalysis) returns (entry: Company)
      ensures fresh(entry) && entry.State() == AnalyzerEntry(name, analysis.State())
    {
      var reuse := analysis.company == name;
      entry := new Company(name, if reuse then analysis.data else None, !(reuse && analysis.data.Some?));
    }

    /** `fetchCompanyProfile` starts on an appended entry that came without data. */
    static method StartIfEmpty(entry: Company)
      modifies entry
      ensures entry.State() == if old(entry.data).None? then StartProfile(old(entry.State())) else old(entry.State())
    {
      if entry.data.None? {
        var started := entry.BeginFetch();
      }
    }

    /** `watchedCompanies.push(entry)`, and the names written to storage. */
    method Append(entry: Company)
      modifies this
      ensures watched == old(watched) + [entry] && saved == Some(NamesOf(watched))
      ensures temp == old(temp) && addError == old(addError)
    {
      watched := watched + [entry];
      saved := Some(NamesOf(watched));
    }
  }
}
