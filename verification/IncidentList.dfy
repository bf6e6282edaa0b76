/** The incident list view: the filter/search/page state, the query it sends for one page of
    incidents, the client-side title search over the returned page, and how a fetch's outcome
    lands in the view state. Rendering, the network and the router are outside the model: a
    response is an input and the query is a list of key/value pairs. */
module IncidentList {
  import opened Wrappers
  import opened Web
  import opened Sequences
  import opened Text

  /** The severity checkboxes, in display order. */
  const Severities: seq<string> := ["SEV1", "SEV2", "SEV3", "SEV4"]

  /** The status drop-down: "all" disables the status filter. */
  const AllStatuses: string := "all"

  /** Incidents requested per page. */
  const PageLimit: nat := 5

  /** The targets of the page-jump buttons, as hard-coded in the view. */
  const PageButtons: seq<nat> := [1, 2, 3, 3, 10]

  /** One incident of a list response. The title is optional because the response is not checked:
      a missing title only matters to the search filter. */
  datatype Item = Item(id: string, title: Option<string>, severity: string, status: string,
                       owner: Option<string>, createdAt: Option<string>)

  // ---------------------------------------------------------------- severity selection

  /** Checking or unchecking a severity: every occurrence is removed when it is selected,
      otherwise it is appended at the end. */
  function Toggle(selected: seq<string>, severity: string): (r: seq<string>)
    ensures severity in r <==> severity !in selected
  {
    if severity in selected then Keep(selected, s => s != severity) else selected + [severity]
  }

  /** Unchecking a selected severity removes exactly its occurrences and keeps the order of the rest. */
  lemma ToggleSelected(selected: seq<string>, severity: string)
    requires severity in selected
    ensures severity !in Toggle(selected, severity)
    ensures IsSubsequence(Toggle(selected, severity), selected)
    ensures forall x :: x != severity ==> multiset(Toggle(selected, severity))[x] == multiset(selected)[x]
  {
    KeepIsSubsequence(selected, s => s != severity);
    forall x | x != severity
      ensures multiset(Toggle(selected, severity))[x] == multiset(selected)[x]
    {
      KeepCount(selected, s => s != severity, x);
    }
  }

  /** Checking a severity that is not selected appends it and changes nothing else. */
  lemma ToggleUnselected(selected: seq<string>, severity: string)
    requires severity !in selected
    ensures Toggle(selected, severity) == selected + [severity]
  {
  }

  /** Checking then unchecking a severity that was not selected restores the selection. */
  lemma {:induction false} ToggleTwice(selected: seq<string>, severity: string)
    requires severity !in selected
    ensures Toggle(Toggle(selected, severity), severity) == selected
  {
    var p := s => s != severity;
    KeepAppend(selected, [severity], p);
    KeepAll(selected, p);
    assert Keep([severity], p) == [];
  }

  /** A selection without duplicates stays without duplicates. */
  lemma {:induction false} ToggleNoDuplicates(selected: seq<string>, severity: string)
    requires NoDuplicates(selected)
    ensures NoDuplicates(Toggle(selected, severity))
  {
    if severity in selected {
      KeepNoDuplicates(selected, s => s != severity);
    }
  }

  // ---------------------------------------------------------------- query parameters

  /** One `name=value` pair of a URL query. */
  datatype Param = Param(key: string, value: string)

  function Keys(query: seq<Param>): (r: seq<string>)
    ensures |r| == |query|
    ensures forall i :: 0 <= i < |query| ==> r[i] == query[i].key
  {
    if query == [] then [] else [query[0].key] + Keys(query[1..])
  }

  /** `URLSearchParams.get`: the value of the first pair named `key`. */
  function Lookup(query: seq<Param>, key: string): (r: Option<string>)
    ensures r.None? <==> key !in Keys(query)
  {
    if query == [] then None
    else if query[0].key == key then Some(query[0].value)
    else Lookup(query[1..], key)
  }

  lemma {:induction false} LookupAppend(query: seq<Param>, p: Param, key: string)
    ensures Keys(query + [p]) == Keys(query) + [p.key]
    ensures Lookup(query + [p], key)
         == if key in Keys(query) then Lookup(query, key) else if p.key == key then Some(p.value) else None
  {
    if query != [] {
      assert (query + [p])[1..] == query[1..] + [p];
      LookupAppend(query[1..], p, key);
    }
  }

  /** The query of a list request, built by appending pairs one at a time: the page, the page size,
      the selected severities comma-joined in selection order (only when some are selected) and
      the status (only when one is chosen). */
  method BuildQuery(page: nat, selected: seq<string>, statusFilter: string) returns (query: seq<Param>)
    ensures Keys(query) == ["page", "limit"] + (if |selected| > 0 then ["severity"] else [])
                                             + (if statusFilter != AllStatuses then ["status"] else [])
    ensures Lookup(query, "page") == Some(NatToString(page))
    ensures Lookup(query, "limit") == Some(NatToString(PageLimit))
    ensures Lookup(query, "severity") == if |selected| > 0 then Some(Join(selected, ',')) else None
    ensures Lookup(query, "status") == if statusFilter != AllStatuses then Some(statusFilter) else None
  {
    query := [Param("page", NatToString(page))];
    AppendParam(query, Param("limit", NatToString(PageLimit)));
    query := query + [Param("limit", NatToString(PageLimit))];
    if |selected| > 0 {
      AppendParam(query, Param("severity", Join(selected, ',')));
      query := query + [Param("severity", Join(selected, ','))];
    }
    if statusFilter != AllStatuses {
      AppendParam(query, Param("status", statusFilter));
      query := query + [Param("status", statusFilter)];
    }
  }

  /** Appending a pair leaves the earlier pairs' lookups alone and makes a new key visible. */
  lemma AppendParam(query: seq<Param>, p: Param)
    ensures Keys(query + [p]) == Keys(query) + [p.key]
    ensures forall key :: key in ["page", "limit", "severity", "status"] ==>
      Lookup(query + [p], key) == if key in Keys(query) then Lookup(query, key) else if p.key == key then Some(p.value) else None
  {
    LookupAppend(query, p, "page");
    LookupAppend(query, p, "limit");
    LookupAppend(query, p, "severity");
    LookupAppend(query, p, "status");
  }

  /** The server reads back exactly the selected severities from the `severity` parameter. */
  lemma SeverityParamRoundTrip(selected: seq<string>)
    requires |selected| > 0
    requires forall i :: 0 <= i < |selected| ==> selected[i] in Severities
    ensures Split(Join(selected, ','), ',') == selected
  {
    forall i | 0 <= i < |selected| ensures ',' !in selected[i] {
      SeverityHasNoComma(selected[i]);
    }
    SplitJoin(selected, ',');
  }

  lemma SeverityHasNoComma(severity: string)
    requires severity in Severities
    ensures ',' !in severity
  {
    assert severity == "SEV1" || severity == "SEV2" || severity == "SEV3" || severity == "SEV4";
  }

  // ---------------------------------------------------------------- client-side search

  /** The search test of one incident: its lower-cased title includes the lower-cased query. */
  predicate TitleMatches(item: Item, query: string)
    ensures TitleMatches(item, query) ==> item.title.Some?
    ensures query == "" ==> (TitleMatches(item, query) <==> item.title.Some?)
  {
    item.title.Some? && Contains(LowerStr(item.title.value), LowerStr(query))
  }

  /** The incidents shown for a returned page. A query that trims to nothing shows the page as is;
      otherwise only matching titles are kept, and an incident without a title makes the filter
      throw (None). */
  function SearchFilter(page: seq<Item>, query: string): (r: Option<seq<Item>>)
    ensures r.Some? ==> |r.value| <= |page|
    ensures r.Some? ==> forall x :: x in r.value ==> x in page
    ensures r.None? ==> exists i :: 0 <= i < |page| && page[i].title.None?
  {
    KeepSubset(page, x => TitleMatches(x, query));
    if Trim(query) == [] then Some(page)
    else if forall i :: 0 <= i < |page| ==> page[i].title.Some? then Some(Keep(page, x => TitleMatches(x, query)))
    else None
  }

  /** A blank query shows the returned page unchanged. */
  lemma SearchBlank(page: seq<Item>, query: string)
    requires IsBlank(query)
    ensures SearchFilter(page, query) == Some(page)
  {
    TrimEmptyIff(query);
  }

  /** A non-blank query shows exactly the matching incidents, in their order, each as often as
      it was returned; the result is never longer than the page. */
  lemma SearchNonBlank(page: seq<Item>, query: string)
    requires !IsBlank(query)
    requires forall i :: 0 <= i < |page| ==> page[i].title.Some?
    ensures SearchFilter(page, query).Some?
    ensures var shown := SearchFilter(page, query).value;
      && IsSubsequence(shown, page)
      && |shown| <= |page|
      && (forall i :: 0 <= i < |shown| ==> TitleMatches(shown[i], query))
      && (forall x :: multiset(shown)[x] == if TitleMatches(x, query) then multiset(page)[x] else 0)
  {
    TrimEmptyIff(query);
    var p := x => TitleMatches(x, query);
    KeepIsSubsequence(page, p);
    forall x ensures multiset(Keep(page, p))[x] == if TitleMatches(x, query) then multiset(page)[x] else 0 {
      KeepCount(page, p, x);
    }
  }

  /** A non-blank query over a page with an untitled incident fails. */
  lemma SearchMissingTitle(page: seq<Item>, query: string, k: nat)
    requires !IsBlank(query)
    requires k < |page| && page[k].title.None?
    ensures SearchFilter(page, query).None?
  {
    TrimEmptyIff(query);
  }

  /** The search is case-blind in the query: lower-casing it first changes nothing. */
  lemma SearchCaseBlind(page: seq<Item>, query: string)
    ensures SearchFilter(page, LowerStr(query)) == SearchFilter(page, query)
  {
    TrimEmptyIff(query);
    TrimEmptyIff(LowerStr(query));
    LowerStrBlank(query);
    LowerStrIdempotent(query);
    KeepCongruent(page, x => TitleMatches(x, LowerStr(query)), x => TitleMatches(x, query));
  }

  /** The lower-cased strings of the example below. */
  lemma ExampleLowering()
    ensures LowerStr("db") == "db"
    ensures LowerStr("DB down") == "db down"
    ensures LowerStr("Auth fail") == "auth fail"
  {
    var q, hit, miss := "db", "DB down", "Auth fail";
    assert LowerStr(q) == q by {
      assert forall i :: 0 <= i < |q| ==> LowerStr(q)[i] == q[i];
    }
    assert LowerStr(hit) == "db down" by {
      assert Lower('D') == 'd' && Lower('B') == 'b';
      assert forall i :: 0 <= i < |hit| ==> LowerStr(hit)[i] == "db down"[i];
    }
    assert LowerStr(miss) == "auth fail" by {
      assert Lower('A') == 'a';
      assert forall i :: 0 <= i < |miss| ==> LowerStr(miss)[i] == "auth fail"[i];
    }
  }

  /** "db" matches the title "DB down" and not the title "Auth fail". */
  lemma ExampleTitles(first: Item, second: Item)
    requires first.title == Some("DB down") && second.title == Some("Auth fail")
    ensures TitleMatches(first, "db") && !TitleMatches(second, "db")
  {
    ExampleLowering();
    ExampleMiss();
    assert StartsWith("db down", "db");
  }

  /** "auth fail" holds no "d", so no "db". */
  lemma ExampleMiss()
    ensures !Contains("auth fail", "db")
  {
    var t, q := "auth fail", "db";
    ContainsIff(t, q);
    forall i | 0 <= i && i + 2 <= |t| ensures !OccursAt(t, q, i) {
      assert t[i..i + 2][0] == t[i] != 'd';
    }
  }

  /** Searching "db" over "DB down" and "Auth fail" shows only the first. */
  lemma SearchExample(first: Item, second: Item)
    requires first.title == Some("DB down") && second.title == Some("Auth fail")
    ensures SearchFilter([first, second], "db") == Some([first])
  {
    ExampleTitles(first, second);
    var q := "db";
    assert Trim(q) != [] by {
      assert !IsWhitespace(q[0]);
      TrimEmptyIff(q);
    }
    var p := x => TitleMatches(x, q);
    var page := [first, second];
    assert page[1..] == [second] && [second][1..] == [];
    assert Keep(page, p) == [first];
  }

  // ---------------------------------------------------------------- fetch outcome

  /** A decoded JSON body, or the message of the parse error. */
  datatype Json<T> = Parsed(value: T) | Malformed(message: string)

  /** The body of a list response: `{ data, totalPages }`, each possibly absent. */
  datatype ListBody = ListBody(data: Option<seq<Item>>, totalPages: Option<int>)

  /** How a list request ends, as seen by the view. */
  datatype ListResponse =
    | Aborted                                    // superseded by a newer request or by unmounting
    | NetworkFailure(message: string)            // the request never returned
    | Received(status: nat, body: Json<ListBody>)

  /** What a completed request does to the view. */
  datatype ListOutcome =
    | Ignore
    | Fail(message: string)
    | Show(incidents: seq<Item>, totalPages: int)

  /** `err.message || "Failed to fetch"`. */
  function ErrorText(message: string): (r: string)
    ensures r != ""
    ensures message != "" ==> r == message
    ensures message == "" ==> r == "Failed to fetch"
  {
    if message == "" then "Failed to fetch" else message
  }

  /** `data.totalPages || 1`: an absent or zero page count reads as one page. */
  function TotalPagesOf(totalPages: Option<int>): (r: int)
    ensures r != 0
    ensures totalPages.Some? && totalPages.value != 0 ==> r == totalPages.value
    ensures totalPages.None? || totalPages.value == 0 ==> r == 1
  {
    if totalPages.Some? && totalPages.value != 0 then totalPages.value else 1
  }

  /** The effect of one completed list request. `titleError` is the engine's message for the
      error thrown when the search reads a missing title. */
  function FetchOutcome(response: ListResponse, searchQuery: string, titleError: string): (o: ListOutcome)
    ensures o.Ignore? <==> response.Aborted?
    ensures o.Fail? ==> o.message != ""
    ensures response.NetworkFailure? ==> o == Fail(ErrorText(response.message))
    ensures response.Received? && IsOk(response.status) && response.body.Malformed?
            ==> o == Fail(ErrorText(response.body.message))
    ensures o.Show? ==> response.Received? && IsOk(response.status) && o.totalPages != 0
  {
    match response
    case Aborted => Ignore
    case NetworkFailure(m) => Fail(ErrorText(m))
    case Received(status, body) =>
      if !IsOk(status) then Fail("HTTP " + NatToString(status))
      else
        match body
        case Malformed(m) => Fail(ErrorText(m))
        case Parsed(b) =>
          match SearchFilter(b.data.GetOr([]), searchQuery)
          case None => Fail(ErrorText(titleError))
          case Some(shown) => Show(shown, TotalPagesOf(b.totalPages))
  }

  /** A non-2xx status is reported as "HTTP <status>". */
  lemma HttpErrorMessage(status: nat, body: Json<ListBody>, searchQuery: string, titleError: string)
    requires !IsOk(status)
    ensures FetchOutcome(Received(status, body), searchQuery, titleError) == Fail("HTTP " + NatToString(status))
  {
  }

  /** A successful response with a blank search shows the returned data (none when absent). */
  lemma SuccessBlankSearch(status: nat, b: ListBody, searchQuery: string, titleError: string)
    requires IsOk(status) && IsBlank(searchQuery)
    ensures FetchOutcome(Received(status, Parsed(b)), searchQuery, titleError)
         == Show(b.data.GetOr([]), TotalPagesOf(b.totalPages))
  {
    SearchBlank(b.data.GetOr([]), searchQuery);
  }

  /** A successful response with a non-blank search over titled incidents shows exactly the
      matching incidents, in order. */
  lemma SuccessSearch(status: nat, b: ListBody, searchQuery: string, titleError: string)
    requires IsOk(status) && !IsBlank(searchQuery)
    requires forall i :: 0 <= i < |b.data.GetOr([])| ==> b.data.GetOr([])[i].title.Some?
    ensures FetchOutcome(Received(status, Parsed(b)), searchQuery, titleError)
         == Show(Keep(b.data.GetOr([]), x => TitleMatches(x, searchQuery)), TotalPagesOf(b.totalPages))
  {
    TrimEmptyIff(searchQuery);
  }

  /** A successful response with a non-blank search over a page holding an untitled incident
      fails with the thrown error's message. */
  lemma SuccessSearchMissingTitle(status: nat, b: ListBody, searchQuery: string, titleError: string, k: nat)
    requires IsOk(status) && !IsBlank(searchQuery)
    requires k < |b.data.GetOr([])| && b.data.GetOr([])[k].title.None?
    ensures FetchOutcome(Received(status, Parsed(b)), searchQuery, titleError) == Fail(ErrorText(titleError))
  {
    SearchMissingTitle(b.data.GetOr([]), searchQuery, k);
  }

  // ---------------------------------------------------------------- the view state

  class ListView {
    var selected: seq<string>
    var searchQuery: string
    var statusFilter: string
    var currentPage: nat
    var incidents: seq<Item>
    var loading: bool
    var error: Option<string>
    var totalPages: int

    /** The selection is a set of known severities and the page is positive. */
    ghost predicate Valid()
      reads this
    {
      && currentPage >= 1
      && NoDuplicates(selected)
      && (forall i :: 0 <= i < |selected| ==> selected[i] in Severities)
    }

    constructor ()
      ensures Valid()
      ensures selected == ["SEV1"] && searchQuery == "" && statusFilter == AllStatuses && currentPage == 1
      ensures incidents == [] && !loading && error == None && totalPages == 1
    {
      selected := ["SEV1"];
      searchQuery := "";
      statusFilter := AllStatuses;
      currentPage := 1;
      incidents := [];
      loading := false;
      error := None;
      totalPages := 1;
    }

    /** A severity checkbox changes: toggle it and go back to page 1. */
    method ToggleService(severity: string)
      requires Valid() && severity in Severities
      modifies this`selected, this`currentPage
      ensures Valid()
      ensures selected == Toggle(old(selected), severity) && currentPage == 1
    {
      ToggleNoDuplicates(selected, severity);
      KeepSubset(selected, s => s != severity);
      var toggled := Toggle(selected, severity);
      forall i | 0 <= i < |toggled| ensures toggled[i] in Severities {
        if toggled[i] != severity {
          assert toggled[i] in selected;
          var j :| 0 <= j < |selected| && selected[j] == toggled[i];
        }
      }
      selected := toggled;
      currentPage := 1;
    }

    /** The status drop-down changes: filter on the new value and go back to page 1. */
    method SetStatusFilter(value: string)
      requires Valid()
      modifies this`statusFilter, this`currentPage
      ensures Valid()
      ensures statusFilter == value && currentPage == 1
    {
      statusFilter := value;
      currentPage := 1;
    }

    /** The search box changes: the page stays where it is. */
    method SetSearchQuery(value: string)
      requires Valid()
      modifies this`searchQuery
      ensures Valid()
      ensures searchQuery == value
    {
      searchQuery := value;
    }

    /** The Filter button: back to page 1. */
    method ApplyFilter()
      requires Valid()
      modifies this`currentPage
      ensures Valid()
      ensures currentPage == 1
    {
      currentPage := 1;
    }

    /** One of the page-jump buttons. */
    method GoToPage(button: nat)
      requires Valid() && button < |PageButtons|
      modifies this`currentPage
      ensures Valid()
      ensures currentPage == PageButtons[button]
    {
      currentPage := PageButtons[button];
    }

    /** A fetch starts (after any filter, search or page change): loading on, error cleared,
        and the query for the current state. */
    method BeginFetch() returns (query: seq<Param>)
      requires Valid()
      modifies this`loading, this`error
      ensures Valid()
      ensures loading && error == None
      ensures Keys(query) == ["page", "limit"] + (if |selected| > 0 then ["severity"] else [])
                                               + (if statusFilter != AllStatuses then ["status"] else [])
      ensures Lookup(query, "page") == Some(NatToString(currentPage))
      ensures Lookup(query, "limit") == Some(NatToString(PageLimit))
      ensures Lookup(query, "severity") == if |selected| > 0 then Some(Join(selected, ',')) else None
      ensures Lookup(query, "status") == if statusFilter != AllStatuses then Some(statusFilter) else None
    {
      loading := true;
      error := None;
      query := BuildQuery(currentPage, selected, statusFilter);
    }

    /** A fetch ends: loading always goes off; an abort touches nothing else; a failure sets the
        error and leaves the previous incidents in place; a success replaces incidents and page count. */
    method CompleteFetch(response: ListResponse, titleError: string)
      requires Valid()
      modifies this`incidents, this`error, this`totalPages, this`loading
      ensures Valid()
      ensures !loading
      ensures match FetchOutcome(response, searchQuery, titleError)
        case Ignore => error == old(error) && incidents == old(incidents) && totalPages == old(totalPages)
        case Fail(m) => error == Some(m) && incidents == old(incidents) && totalPages == old(totalPages)
        case Show(shown, pages) => error == old(error) && incidents == shown && totalPages == pages
    {
      match FetchOutcome(response, searchQuery, titleError) {
        case Ignore =>
        case Fail(m) =>
          error := Some(m);
        case Show(shown, pages) =>
          incidents := shown;
          totalPages := pages;
      }
      loading := false;
    }
  }
}
