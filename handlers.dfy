/**
 The action handlers of the GitHub MCP server: `search_repositories`,
 `get_repository` and `list_issues`. Each takes an incoming action, reads its
 parameter mapping, fills in defaults, coerces `limit` with `int()`, checks
 the required parameters by Python truthiness, calls the GitHub client once,
 and projects the client's records onto a fixed set of keys. Anything raised
 on the way becomes `Error("Failed to <operation>: <message>")`.

 The GitHub client is an oracle from the call made to what it returned or
 raised; every handler reports the calls it made, so that "no upstream call"
 is a statement about its result.
 */
module Handlers {
  import opened Json
  import opened Coerce

  /** What a handler is given: an action object with a `params` attribute,
      or some other value (a plain dict, None) passed in its place. */
  datatype Invocation = WithParams(params: Json) | Bare(action: Json)

  /** A call into the GitHub client, with the arguments the handler passes. */
  datatype ClientCall =
    | SearchRepositoriesCall(query: Json, limit: int, sort: Json, order: Json)
    | GetRepositoryCall(owner: Json, repo: Json)
    | GetIssuesCall(owner: Json, repo: Json, state: Json, limit: int)

  /** The GitHub client as the handlers see it: what each call returns or raises. */
  type Client = ClientCall -> Outcome<Json>

  /** `ActionSuccessResult(result=...)` and `ActionErrorResult(error=...)`. */
  datatype ActionResult = Success(result: Json) | Error(error: string)

  /** A handler's result together with the client calls it made, in order. */
  datatype Handled = Handled(result: ActionResult, calls: seq<ClientCall>)

  const QueryRequired: string := "Query parameter is required"
  const OwnerRepoRequired: string := "Owner and repo parameters are required"

  const SearchOp: string := "search repositories"
  const GetRepositoryOp: string := "get repository"
  const ListIssuesOp: string := "list issues"

  /** How every "something raised" error message of operation `op` begins. */
  function FailurePrefix(op: string): string
  {
    "Failed to " + op + ": "
  }

  /** The message of the error a handler returns when `op` raised `message`. */
  function FailedTo(op: string, message: string): (r: string)
    ensures IsPrefix(FailurePrefix(op), r)
  {
    FailurePrefix(op) + message
  }

  /** The handler's `except` clause: a raised exception becomes an error result. */
  function Respond(op: string, body: Outcome<Json>): (r: ActionResult)
    ensures body.Ok? ==> r == Success(body.value)
    ensures body.Raised? ==> r == Error(FailedTo(op, body.message))
  {
    match body
    case Ok(v) => Success(v)
    case Raised(e) => Error(FailedTo(op, e))
  }

  predicate IsPrefix(prefix: string, s: string)
  {
    |prefix| <= |s| && s[..|prefix|] == prefix
  }

  /** `getattr(action, 'params', action) or {}`. */
  function ParamSource(inv: Invocation): (p: Json)
    ensures Truthy(p) || p == EmptyObject
    ensures inv.WithParams? && Truthy(inv.params) ==> p == inv.params
    ensures inv.Bare? && Truthy(inv.action) ==> p == inv.action
    ensures !Truthy(if inv.WithParams? then inv.params else inv.action) ==> p == EmptyObject
  {
    var given := match inv
      case WithParams(params) => params
      case Bare(action) => action;
    if Truthy(given) then given else EmptyObject
  }

  // ---------------------------------------------------------------------------
  // Projection of upstream records

  /** The two fixed shapes the handlers project upstream records onto. */
  datatype Projection = RepositoryFields | IssueFields

  const RepositoryKeys: set<string> :=
    {"name", "description", "stars", "forks", "language", "url", "created_at", "updated_at"}

  const IssueKeys: set<string> :=
    {"number", "title", "state", "created_at", "updated_at", "user", "url", "comments"}

  /** The dict `handle_search_repositories` builds for one repository record. */
  function RepositorySummary(repo: map<string, Json>): (r: map<string, Json>)
    ensures r.Keys == RepositoryKeys
    ensures r["name"] == GetOr(repo, "full_name", JNull) && r["description"] == GetOr(repo, "description", JNull)
    ensures r["stars"] == GetOr(repo, "stargazers_count", JNull) && r["forks"] == GetOr(repo, "forks_count", JNull)
    ensures r["language"] == GetOr(repo, "language", JNull) && r["url"] == GetOr(repo, "html_url", JNull)
    ensures r["created_at"] == GetOr(repo, "created_at", JNull) && r["updated_at"] == GetOr(repo, "updated_at", JNull)
  {
    map[
      "name" := GetOr(repo, "full_name", JNull),
      "description" := GetOr(repo, "description", JNull),
      "stars" := GetOr(repo, "stargazers_count", JNull),
      "forks" := GetOr(repo, "forks_count", JNull),
      "language" := GetOr(repo, "language", JNull),
      "url" := GetOr(repo, "html_url", JNull),
      "created_at" := GetOr(repo, "created_at", JNull),
      "updated_at" := GetOr(repo, "updated_at", JNull)
    ]
  }

  /** The dict `handle_list_issues` builds for one issue record, given the
      value it found for the reporter's login. */
  function IssueSummary(issue: map<string, Json>, login: Json): (r: map<string, Json>)
    ensures r.Keys == IssueKeys
    ensures r["number"] == GetOr(issue, "number", JNull) && r["title"] == GetOr(issue, "title", JNull)
    ensures r["state"] == GetOr(issue, "state", JNull) && r["user"] == login
    ensures r["created_at"] == GetOr(issue, "created_at", JNull) && r["updated_at"] == GetOr(issue, "updated_at", JNull)
    ensures r["url"] == GetOr(issue, "html_url", JNull) && r["comments"] == GetOr(issue, "comments", JNull)
  {
    map[
      "number" := GetOr(issue, "number", JNull),
      "title" := GetOr(issue, "title", JNull),
      "state" := GetOr(issue, "state", JNull),
      "created_at" := GetOr(issue, "created_at", JNull),
      "updated_at" := GetOr(issue, "updated_at", JNull),
      "user" := login,
      "url" := GetOr(issue, "html_url", JNull),
      "comments" := GetOr(issue, "comments", JNull)
    ]
  }

  /** One iteration of the formatting loop: the dict literal appended for
      element `x`. Each value is read with `x.get(...)`, so a non-dict element
      raises; for an issue, `x.get("user", {}).get("login")` raises too when
      `user` is present but not a dict. */
  function Project(p: Projection, x: Json): (r: Outcome<Json>)
    ensures !x.JObj? ==> r == Raised(NoAttribute(x, "get"))
    ensures x.JObj? && p == RepositoryFields ==> r == Ok(JObj(RepositorySummary(x.fields)))
    ensures x.JObj? && p == IssueFields && "user" !in x.fields ==>
      r == Ok(JObj(IssueSummary(x.fields, JNull)))
    ensures x.JObj? && p == IssueFields && "user" in x.fields && x.fields["user"].JObj? ==>
      r == Ok(JObj(IssueSummary(x.fields, GetOr(x.fields["user"].fields, "login", JNull))))
    ensures x.JObj? && p == IssueFields && "user" in x.fields && !x.fields["user"].JObj? ==>
      r == Raised(NoAttribute(x.fields["user"], "get"))
  {
    match x
    case JObj(fields) =>
      (match p
       case RepositoryFields => Ok(JObj(RepositorySummary(fields)))
       case IssueFields =>
         var user := GetOr(fields, "user", EmptyObject);
         var login :- DictGet(user, "login", JNull);
         Ok(JObj(IssueSummary(fields, login))))
    case _ => Raised(NoAttribute(x, "get"))
  }

  /** Formatting every element of a list in order; the first element that
      raises ends the loop with its exception. */
  function FormatAll(p: Projection, xs: seq<Json>): (r: Outcome<seq<Json>>)
    ensures r.Ok? <==> forall i :: 0 <= i < |xs| ==> Project(p, xs[i]).Ok?
    ensures r.Ok? ==> |r.value| == |xs| && forall i :: 0 <= i < |xs| ==> Project(p, xs[i]) == Ok(r.value[i])
  {
    if xs == [] then Ok([])
    else
      match Project(p, xs[0])
      case Raised(e) => Raised(e)
      case Ok(y) =>
        var rest := FormatAll(p, xs[1..]);
        assert forall i :: 1 <= i < |xs| ==> xs[i] == xs[1..][i - 1];
        match rest
        case Raised(e) => Raised(e)
        case Ok(ys) => Ok([y] + ys)
  }

  lemma {:induction false} FormatAllFirstFailure(p: Projection, xs: seq<Json>, k: nat)
    requires k < |xs| && Project(p, xs[k]).Raised?
    requires forall j :: 0 <= j < k ==> Project(p, xs[j]).Ok?
    ensures FormatAll(p, xs) == Raised(Project(p, xs[k]).message)
  {
    if k > 0 {
      FormatAllFirstFailure(p, xs[1..], k - 1);
    }
  }

  /** The characters of a string, each a one-character `str`, as `for c in s` yields them. */
  function Chars(s: string): (r: seq<Json>)
    ensures |r| == |s| && forall i :: 0 <= i < |s| ==> r[i] == JStr([s[i]])
  {
    seq(|s|, i requires 0 <= i < |s| => JStr([s[i]]))
  }

  /** `for x in container: formatted.append(...)`. A list yields its elements
      and a str its characters. A dict yields its keys, all strings, so a
      non-empty dict raises at the first `.get` whichever key comes first
      (see ProjectStr). Anything else is not iterable. */
  function ProjectEach(p: Projection, container: Json): (r: Outcome<seq<Json>>)
    ensures container.JArr? ==> r == FormatAll(p, container.items)
    ensures container.JStr? ==> r == FormatAll(p, Chars(container.s))
    ensures container.JObj? ==> (r == Ok([]) <==> container.fields == map[])
    ensures container.JObj? ==>
      forall k :: k in container.fields ==> r.Raised? && Project(p, JStr(k)) == Raised(r.message)
    ensures (container.JNull? || container.JBool? || container.JInt?) ==> r == Raised(NotIterable(container))
  {
    match container
    case JArr(items) => FormatAll(p, items)
    case JStr(s) => FormatAll(p, Chars(s))
    case JObj(fields) => if fields == map[] then Ok([]) else Raised(NoAttribute(JStr(""), "get"))
    case _ => Raised(NotIterable(container))
  }

  /** Formatting a str raises the same exception whatever the str holds. */
  lemma ProjectStr(p: Projection, key: string)
    ensures Project(p, JStr(key)) == Raised(NoAttribute(JStr(""), "get"))
  {
  }

  /** The formatting loop over the elements of a list. */
  method FormatList(p: Projection, elements: seq<Json>) returns (r: Outcome<seq<Json>>)
    ensures r == FormatAll(p, elements)
  {
    var formatted: seq<Json> := [];
    var i := 0;
    while i < |elements|
      invariant 0 <= i <= |elements| && |formatted| == i
      invariant forall j :: 0 <= j < i ==> Project(p, elements[j]) == Ok(formatted[j])
    {
      var entry := Project(p, elements[i]);
      if entry.Raised? {
        FormatAllFirstFailure(p, elements, i);
        return Raised(entry.message);
      }
      formatted := formatted + [entry.value];
      i := i + 1;
    }
    assert FormatAll(p, elements).Ok?;
    assert FormatAll(p, elements).value == formatted;
    r := Ok(formatted);
  }

  /** The formatting loop of both handlers, over whatever the client returned. */
  method FormatEach(p: Projection, container: Json) returns (r: Outcome<seq<Json>>)
    ensures r == ProjectEach(p, container)
  {
    match container {
      case JArr(items) => r := FormatList(p, items);
      case JStr(s) => r := FormatList(p, Chars(s));
      case JObj(fields) =>
        r := if fields == map[] then Ok([]) else Raised(NoAttribute(JStr(""), "get"));
      case _ =>
        r := Raised(NotIterable(container));
    }
  }

  // ---------------------------------------------------------------------------
  // search_repositories

  datatype SearchArgs = SearchArgs(query: Json, limit: int, sort: Json, order: Json)

  /** The parameter reads of `handle_search_repositories`, in source order.
      Only the first `.get` can raise: once it has, the parameters are a dict. */
  function ReadSearchArgs(params: Json): (r: Outcome<SearchArgs>)
    ensures !params.JObj? ==> r == Raised(NoAttribute(params, "get"))
    ensures params.JObj? ==>
      var limit := Int(GetOr(params.fields, "limit", JInt(5)));
      && (limit.Raised? ==> r == Raised(limit.message))
      && (limit.Ok? ==> r == Ok(SearchArgs(
            GetOr(params.fields, "query", JStr("")), limit.value,
            GetOr(params.fields, "sort", JStr("stars")), GetOr(params.fields, "order", JStr("desc")))))
  {
    match params
    case JObj(fields) =>
      var query := GetOr(fields, "query", JStr(""));
      var limit :- Int(GetOr(fields, "limit", JInt(5)));
      var sort := GetOr(fields, "sort", JStr("stars"));
      var order := GetOr(fields, "order", JStr("desc"));
      Ok(SearchArgs(query, limit, sort, order))
    case _ => Raised(NoAttribute(params, "get"))
  }

  /** `handle_search_repositories`. */
  function SearchRepositories(inv: Invocation, client: Client): (h: Handled)
    ensures |h.calls| <= 1
    ensures h.calls == [] ==> h.result.Error?
    ensures h.calls != [] ==> h.calls[0].SearchRepositoriesCall? && Truthy(h.calls[0].query)
    ensures h.result.Error? ==>
      h.result.error == QueryRequired || IsPrefix(FailurePrefix(SearchOp), h.result.error)
  {
    match ReadSearchArgs(ParamSource(inv))
    case Raised(e) => Handled(Error(FailedTo(SearchOp, e)), [])
    case Ok(a) =>
      if !Truthy(a.query) then Handled(Error(QueryRequired), [])
      else
        var call := SearchRepositoriesCall(a.query, a.limit, a.sort, a.order);
        var body :=
          var repos :- client(call);
          var formatted :- ProjectEach(RepositoryFields, repos);
          Ok(JObj(map["repositories" := JArr(formatted)]));
        Handled(Respond(SearchOp, body), [call])
  }

  method HandleSearchRepositories(inv: Invocation, client: Client) returns (h: Handled)
    ensures h == SearchRepositories(inv, client)
  {
    var params := ParamSource(inv);
    var args := ReadSearchArgs(params);
    if args.Raised? {
      return Handled(Error(FailedTo(SearchOp, args.message)), []);
    }
    var a := args.value;
    if !Truthy(a.query) {
      return Handled(Error(QueryRequired), []);
    }
    var call := SearchRepositoriesCall(a.query, a.limit, a.sort, a.order);
    var repos := client(call);
    if repos.Raised? {
      return Handled(Error(FailedTo(SearchOp, repos.message)), [call]);
    }
    var formatted := FormatEach(RepositoryFields, repos.value);
    if formatted.Raised? {
      return Handled(Error(FailedTo(SearchOp, formatted.message)), [call]);
    }
    h := Handled(Success(JObj(map["repositories" := JArr(formatted.value)])), [call]);
  }

  // ---------------------------------------------------------------------------
  // get_repository

  datatype RepoArgs = RepoArgs(owner: Json, repo: Json)

  /** The `owner` and `repo` reads shared by `get_repository` and `list_issues`. */
  function ReadRepoArgs(params: Json): (r: Outcome<RepoArgs>)
    ensures !params.JObj? ==> r == Raised(NoAttribute(params, "get"))
    ensures params.JObj? ==>
      r == Ok(RepoArgs(GetOr(params.fields, "owner", JNull), GetOr(params.fields, "repo", JNull)))
  {
    match params
    case JObj(fields) => Ok(RepoArgs(GetOr(fields, "owner", JNull), GetOr(fields, "repo", JNull)))
    case _ => Raised(NoAttribute(params, "get"))
  }

  /** `handle_get_repository`. */
  function GetRepository(inv: Invocation, client: Client): (h: Handled)
    ensures |h.calls| <= 1
    ensures h.calls == [] ==> h.result.Error?
    ensures h.calls != [] ==>
      h.calls[0].GetRepositoryCall? && Truthy(h.calls[0].owner) && Truthy(h.calls[0].repo)
    ensures h.result.Error? ==>
      h.result.error == OwnerRepoRequired || IsPrefix(FailurePrefix(GetRepositoryOp), h.result.error)
  {
    match ReadRepoArgs(ParamSource(inv))
    case Raised(e) => Handled(Error(FailedTo(GetRepositoryOp, e)), [])
    case Ok(a) =>
      if !Truthy(a.owner) || !Truthy(a.repo) then Handled(Error(OwnerRepoRequired), [])
      else
        var call := GetRepositoryCall(a.owner, a.repo);
        var body :=
          var repoData :- client(call);
          Ok(JObj(map["repository" := repoData]));
        Handled(Respond(GetRepositoryOp, body), [call])
  }

  // ---------------------------------------------------------------------------
  // list_issues

  datatype IssuesArgs = IssuesArgs(owner: Json, repo: Json, state: Json, limit: int)

  /** The parameter reads of `handle_list_issues`, in source order. */
  function ReadIssuesArgs(params: Json): (r: Outcome<IssuesArgs>)
    ensures !params.JObj? ==> r == Raised(NoAttribute(params, "get"))
    ensures params.JObj? ==>
      var limit := Int(GetOr(params.fields, "limit", JInt(10)));
      && (limit.Raised? ==> r == Raised(limit.message))
      && (limit.Ok? ==> r == Ok(IssuesArgs(
            GetOr(params.fields, "owner", JNull), GetOr(params.fields, "repo", JNull),
            GetOr(params.fields, "state", JStr("open")), limit.value)))
  {
    var a :- ReadRepoArgs(params);
    var state := GetOr(params.fields, "state", JStr("open"));
    var limit :- Int(GetOr(params.fields, "limit", JInt(10)));
    Ok(IssuesArgs(a.owner, a.repo, state, limit))
  }

  /** `handle_list_issues`. */
  function ListIssues(inv: Invocation, client: Client): (h: Handled)
    ensures |h.calls| <= 1
    ensures h.calls == [] ==> h.result.Error?
    ensures h.calls != [] ==>
      h.calls[0].GetIssuesCall? && Truthy(h.calls[0].owner) && Truthy(h.calls[0].repo)
    ensures h.result.Error? ==>
      h.result.error == OwnerRepoRequired || IsPrefix(FailurePrefix(ListIssuesOp), h.result.error)
  {
    match ReadIssuesArgs(ParamSource(inv))
    case Raised(e) => Handled(Error(FailedTo(ListIssuesOp, e)), [])
    case Ok(a) =>
      if !Truthy(a.owner) || !Truthy(a.repo) then Handled(Error(OwnerRepoRequired), [])
      else
        var call := GetIssuesCall(a.owner, a.repo, a.state, a.limit);
        var body :=
          var issues :- client(call);
          var formatted :- ProjectEach(IssueFields, issues);
          Ok(JObj(map["issues" := JArr(formatted)]));
        Handled(Respond(ListIssuesOp, body), [call])
  }

  method HandleListIssues(inv: Invocation, client: Client) returns (h: Handled)
    ensures h == ListIssues(inv, client)
  {
    var params := ParamSource(inv);
    var args := ReadIssuesArgs(params);
    if args.Raised? {
      return Handled(Error(FailedTo(ListIssuesOp, args.message)), []);
    }
    var a := args.value;
    if !Truthy(a.owner) || !Truthy(a.repo) {
      return Handled(Error(OwnerRepoRequired), []);
    }
    var call := GetIssuesCall(a.owner, a.repo, a.state, a.limit);
    var issues := client(call);
    if issues.Raised? {
      return Handled(Error(FailedTo(ListIssuesOp, issues.message)), [call]);
    }
    var formatted := FormatEach(IssueFields, issues.value);
    if formatted.Raised? {
      return Handled(Error(FailedTo(ListIssuesOp, formatted.message)), [call]);
    }
    h := Handled(Success(JObj(map["issues" := JArr(formatted.value)])), [call]);
  }
}
