/** The account endpoints of the banking API (`STAccountService`): for every request, its
    path, HTTP method, task, headers, whether it needs authorisation and how its status code
    is validated. */
module AccountService {
  import opened Wrappers

  datatype AccountService =
    | BrowseAccounts
    | GetIdentifiers(accountId: string)
    | GetBalance(accountId: string)
    | GetConfirmationOfFunds(accountId: string)
    | GetAvailableStatementPeriods(accountId: string)
    | DownloadStatementPDF(accountId: string, yearMonth: string)
    | DownloadStatementCSV(accountId: string, yearMonth: string)
    | DownloadStatementPDFForDateRange(accountId: string, start: string, end: string)
    | DownloadStatementCSVForDateRange(accountId: string, start: string, end: string)
  {
    predicate IsMonthlyDownload() {
      DownloadStatementPDF? || DownloadStatementCSV?
    }

    predicate IsDateRangeDownload() {
      DownloadStatementPDFForDateRange? || DownloadStatementCSVForDateRange?
    }

    predicate IsPdf() {
      DownloadStatementPDF? || DownloadStatementPDFForDateRange?
    }

    predicate IsCsv() {
      DownloadStatementCSV? || DownloadStatementCSVForDateRange?
    }
  }

  datatype HttpMethod = GET | POST | PUT | PATCH | DELETE

  /** A plain request, or a download whose parameters are URL-encoded into the query. */
  datatype Task = RequestPlain | DownloadParameters(parameters: map<string, string>)

  datatype ValidationType = NoValidation | SuccessCodes | SuccessAndRedirectCodes

  const UserAgent: string := "Christian Ray Leovido"

  /** The path of every request starts with this. */
  const AccountsRoot: string := "/accounts"

  const MonthlySuffix: string := "/statement/download"
  const DateRangeSuffix: string := "/statement/downloadForDateRange"

  /** A string as Swift's `debugDescription` writes it: quoted, with quotes and backslashes
      escaped. */
  function Quoted(s: string): (r: string)
    ensures |r| >= |s| + 2
  {
    "\"" + Escaped(s) + "\""
  }

  function Escaped(s: string): (r: string)
    ensures |r| >= |s|
  {
    if s == [] then []
    else (if s[0] == '"' || s[0] == '\\' then ['\\', s[0]] else [s[0]]) + Escaped(s[1..])
  }

  /** How a string interpolation renders the labelled tuple `(accountId:start:end:)`. */
  function TupleDescription(accountId: string, start: string, end: string): (r: string)
    ensures |r| > |accountId|
  {
    "(accountId: " + Quoted(accountId) + ", start: " + Quoted(start) + ", end: " + Quoted(end) + ")"
  }

  /** The endpoint name that follows the account id, for the requests that have one. */
  function Suffix(request: AccountService): (r: string)
    requires !request.BrowseAccounts?
    ensures |r| >= 3 && r[0] == '/'
  {
    match request
    case GetIdentifiers(_) => "/identifiers"
    case GetBalance(_) => "/balance"
    case GetConfirmationOfFunds(_) => "/confirmation-of-funds"
    case GetAvailableStatementPeriods(_) => "/available-periods"
    case DownloadStatementPDF(_, _) => MonthlySuffix
    case DownloadStatementCSV(_, _) => MonthlySuffix
    case DownloadStatementPDFForDateRange(_, _, _) => DateRangeSuffix
    case DownloadStatementCSVForDateRange(_, _, _) => DateRangeSuffix
  }

  /** `path`, as written. In the date-range cases the single `let accountId` binds the whole
      associated tuple, so the segment after `/accounts/` is the tuple's description rather
      than the account id. */
  function Path(request: AccountService): (r: string)
    ensures |r| >= |AccountsRoot| && r[..|AccountsRoot|] == AccountsRoot
    ensures request.BrowseAccounts? <==> r == AccountsRoot
  {
    match request
    case BrowseAccounts => AccountsRoot
    case GetIdentifiers(id) => AccountsRoot + "/" + id + "/identifiers"
    case GetBalance(id) => AccountsRoot + "/" + id + "/balance"
    case GetConfirmationOfFunds(id) => AccountsRoot + "/" + id + "/confirmation-of-funds"
    case GetAvailableStatementPeriods(id) => AccountsRoot + "/" + id + "/available-periods"
    case DownloadStatementPDF(id, _) => AccountsRoot + "/" + id + MonthlySuffix
    case DownloadStatementCSV(id, _) => AccountsRoot + "/" + id + MonthlySuffix
    case DownloadStatementPDFForDateRange(id, start, end) =>
      AccountsRoot + "/" + TupleDescription(id, start, end) + DateRangeSuffix
    case DownloadStatementCSVForDateRange(id, start, end) =>
      AccountsRoot + "/" + TupleDescription(id, start, end) + DateRangeSuffix
  }

  /** The path the date-range cases were evidently meant to have: the account id itself
      between `/accounts/` and the endpoint name, as in every other case. */
  function IntendedPath(request: AccountService): (r: string)
    ensures request.BrowseAccounts? ==> r == AccountsRoot
    ensures !request.BrowseAccounts? ==> r == AccountsRoot + "/" + request.accountId + Suffix(request)
  {
    match request
    case DownloadStatementPDFForDateRange(id, _, _) => AccountsRoot + "/" + id + DateRangeSuffix
    case DownloadStatementCSVForDateRange(id, _, _) => AccountsRoot + "/" + id + DateRangeSuffix
    case _ => Path(request)
  }

  function Method(request: AccountService): HttpMethod {
    GET
  }

  /** `task`: the monthly downloads carry `yearMonth`, the date-range downloads `start` and
      `end`, everything else is a plain request. */
  function TaskOf(request: AccountService): (r: Task)
    ensures r.DownloadParameters? <==> request.IsMonthlyDownload() || request.IsDateRangeDownload()
  {
    match request
    case DownloadStatementPDF(_, yearMonth) => DownloadParameters(map["yearMonth" := yearMonth])
    case DownloadStatementCSV(_, yearMonth) => DownloadParameters(map["yearMonth" := yearMonth])
    case DownloadStatementPDFForDateRange(_, start, end) =>
      DownloadParameters(map["start" := start, "end" := end])
    case DownloadStatementCSVForDateRange(_, start, end) =>
      DownloadParameters(map["start" := start, "end" := end])
    case _ => RequestPlain
  }

  /** `headers`: the same two header names on every request. */
  function Headers(request: AccountService): (h: map<string, string>)
    ensures h.Keys == {"Accept", "User-agent"}
    ensures h["User-agent"] == UserAgent
  {
    var accept :=
      if request.IsPdf() then "application/pdf"
      else if request.IsCsv() then "text/csv"
      else "application/json";
    map["Accept" := accept, "User-agent" := UserAgent]
  }

  function NeedsAuth(request: AccountService): bool {
    true
  }

  function Validation(request: AccountService): ValidationType {
    SuccessAndRedirectCodes
  }

  /** Every account request is an authorised GET that accepts success and redirect codes. */
  lemma EveryRequestIsAuthorisedGet(request: AccountService)
    ensures Method(request) == GET
    ensures NeedsAuth(request)
    ensures Validation(request) == SuccessAndRedirectCodes
  {
  }

  /** The `Accept` header names the statement format: PDF exactly for the PDF downloads, CSV
      exactly for the CSV downloads, JSON for everything else. */
  lemma AcceptNamesFormat(request: AccountService)
    ensures Headers(request)["Accept"] == "application/pdf" <==> request.IsPdf()
    ensures Headers(request)["Accept"] == "text/csv" <==> request.IsCsv()
    ensures Headers(request)["Accept"] == "application/json"
            <==> !request.IsMonthlyDownload() && !request.IsDateRangeDownload()
  {
  }

  /** Monthly downloads carry exactly `yearMonth`, date-range downloads exactly `start` and
      `end`, each with the request's own value. */
  lemma DownloadParametersOf(request: AccountService)
    ensures request.IsMonthlyDownload() ==>
              && TaskOf(request).parameters.Keys == {"yearMonth"}
              && TaskOf(request).parameters["yearMonth"] == request.yearMonth
    ensures request.IsDateRangeDownload() ==>
              && TaskOf(request).parameters.Keys == {"start", "end"}
              && TaskOf(request).parameters["start"] == request.start
              && TaskOf(request).parameters["end"] == request.end
  {
  }

  /** Apart from the date-range downloads, the path is `/accounts/{accountId}` followed by
      the endpoint name; monthly PDF and CSV downloads share a path. */
  lemma PathOfAccountRequest(request: AccountService)
    requires !request.BrowseAccounts? && !request.IsDateRangeDownload()
    ensures Path(request) == AccountsRoot + "/" + request.accountId + Suffix(request)
    ensures request.IsMonthlyDownload() ==>
              Path(request) == AccountsRoot + "/" + request.accountId + "/statement/download"
  {
  }

  /** The date-range paths start with `/accounts/` and end with the endpoint name, and what
      lies between is not the account id: it is longer. */
  lemma DateRangePathQuirk(request: AccountService)
    requires request.IsDateRangeDownload()
    ensures var p := Path(request);
            && |p| >= |AccountsRoot| + 1 + |DateRangeSuffix|
            && p[..|AccountsRoot| + 1] == AccountsRoot + "/"
            && p[|p| - |DateRangeSuffix|..] == DateRangeSuffix
            && |p| > |IntendedPath(request)|
    ensures Path(request) != IntendedPath(request)
  {
    var id, start, end := request.accountId, request.start, request.end;
    var middle := TupleDescription(id, start, end);
    var p := Path(request);
    assert p == (AccountsRoot + "/") + middle + DateRangeSuffix;
    assert p[..|AccountsRoot| + 1] == AccountsRoot + "/";
    assert p[|p| - |DateRangeSuffix|..] == DateRangeSuffix;
  }

  /** A one-character string with nothing to escape is quoted as is. */
  lemma QuotedPlain(c: char)
    requires c != '"' && c != '\\'
    ensures Quoted([c]) == ['"', c, '"']
  {
    assert Escaped([c]) == [c] + Escaped([]);
  }

  /** The description of the tuple `(accountId: "a", start: "s", end: "e")`. */
  lemma TupleDescriptionExample()
    ensures TupleDescription("a", "s", "e") == "(accountId: \"a\", start: \"s\", end: \"e\")"
  {
    QuotedPlain('a');
    QuotedPlain('s');
    QuotedPlain('e');
    assert "(accountId: " + "\"a\"" + ", start: " + "\"s\"" + ", end: " + "\"e\"" + ")"
           == "(accountId: \"a\", start: \"s\", end: \"e\")";
  }

  /** The date-range PDF download for account "a" from "s" to "e" is routed through the
      segment `(accountId: "a", start: "s", end: "e")` instead of `a`. */
  lemma DateRangePathExample()
    ensures Path(DownloadStatementPDFForDateRange("a", "s", "e"))
            == "/accounts/" + "(accountId: \"a\", start: \"s\", end: \"e\")" + "/statement/downloadForDateRange"
    ensures IntendedPath(DownloadStatementPDFForDateRange("a", "s", "e"))
            == "/accounts/" + "a" + "/statement/downloadForDateRange"
  {
    TupleDescriptionExample();
    assert AccountsRoot + "/" == "/accounts/";
  }

  /** The last three characters tell every endpoint name apart. */
  lemma SuffixEndings(a: AccountService, b: AccountService)
    requires !a.BrowseAccounts? && !b.BrowseAccounts?
    requires Suffix(a)[|Suffix(a)| - 3..] == Suffix(b)[|Suffix(b)| - 3..]
    ensures Suffix(a) == Suffix(b)
  {
  }

  /** Two splittings of one string end in the same three characters. */
  lemma SameLastThree(w: string, u: string, su: string, v: string, sv: string)
    requires w == u + su && w == v + sv && |su| >= 3 && |sv| >= 3
    ensures su[|su| - 3..] == sv[|sv| - 3..]
  {
    assert su[|su| - 3..] == w[|w| - 3..];
    assert sv[|sv| - 3..] == w[|w| - 3..];
  }

  /** Between a shared prefix and a shared suffix the middle is determined. */
  lemma SameMiddle(w: string, prefix: string, x: string, y: string, suffix: string)
    requires w == prefix + x + suffix && w == prefix + y + suffix
    ensures x == y
  {
    assert x == w[|prefix|..|w| - |suffix|];
    assert y == w[|prefix|..|w| - |suffix|];
  }

  /** Two account requests with the same intended path have the same account id and the
      same endpoint name. */
  lemma SameIdAndSuffix(a: AccountService, b: AccountService)
    requires !a.BrowseAccounts? && !b.BrowseAccounts?
    requires IntendedPath(a) == IntendedPath(b)
    ensures a.accountId == b.accountId && Suffix(a) == Suffix(b)
  {
    var p := IntendedPath(a);
    var prefix := AccountsRoot + "/";
    var sa, sb := Suffix(a), Suffix(b);
    assert p == (prefix + a.accountId) + sa && p == (prefix + b.accountId) + sb;
    SameLastThree(p, prefix + a.accountId, sa, prefix + b.accountId, sb);
    SuffixEndings(a, b);
    SameMiddle(p, prefix, a.accountId, b.accountId, sa);
  }

  /** An account request is fixed by its account id, endpoint name, `Accept` header and
      task. */
  lemma SameRequestOfParts(a: AccountService, b: AccountService)
    requires !a.BrowseAccounts? && !b.BrowseAccounts?
    requires a.accountId == b.accountId && Suffix(a) == Suffix(b)
    requires Headers(a)["Accept"] == Headers(b)["Accept"] && TaskOf(a) == TaskOf(b)
    ensures a == b
  {
    AcceptNamesFormat(a);
    AcceptNamesFormat(b);
    if a.IsMonthlyDownload() {
      DownloadParametersOf(a);
      DownloadParametersOf(b);
      assert b.IsMonthlyDownload() && a.yearMonth == b.yearMonth;
    } else if a.IsDateRangeDownload() {
      DownloadParametersOf(a);
      DownloadParametersOf(b);
      assert b.IsDateRangeDownload() && a.start == b.start && a.end == b.end;
    }
  }

  /** Two requests with the same intended path, headers and task are the same request: the
      routing table loses nothing. */
  lemma IntendedRequestIsDetermined(a: AccountService, b: AccountService)
    requires IntendedPath(a) == IntendedPath(b)
    requires Headers(a) == Headers(b) && TaskOf(a) == TaskOf(b)
    ensures a == b
  {
    if a.BrowseAccounts? || b.BrowseAccounts? {
      // every other path is longer than the root
      assert |IntendedPath(a)| == |AccountsRoot|;
    } else {
      SameIdAndSuffix(a, b);
      SameRequestOfParts(a, b);
    }
  }

  /** The same holds for the paths as written, as long as neither request is a date-range
      download. */
  lemma RequestIsDetermined(a: AccountService, b: AccountService)
    requires !a.IsDateRangeDownload() && !b.IsDateRangeDownload()
    requires Path(a) == Path(b) && Headers(a) == Headers(b) && TaskOf(a) == TaskOf(b)
    ensures a == b
  {
    assert IntendedPath(a) == Path(a) && IntendedPath(b) == Path(b);
    IntendedRequestIsDetermined(a, b);
  }
}
