/**
 What the three handlers promise their callers: required parameters are
 checked before any call, defaults are filled in, `limit` is coerced with
 `int()` before the check, records are projected one for one and in order,
 and whatever is raised becomes an error whose message names the operation.
 */
module HandlerProperties {
  import opened Json
  import opened Coerce
  import opened Handlers

  /** A "something raised" message is never one of the two validation messages. */
  lemma FailedToIsNotValidation(op: string, message: string)
    ensures FailedTo(op, message) != QueryRequired
    ensures FailedTo(op, message) != OwnerRepoRequired
  {
    assert FailedTo(op, message)[0] == 'F';
    assert QueryRequired[0] == 'Q';
    assert OwnerRepoRequired[0] == 'O';
  }

  /** The `except` clause never produces a validation message. */
  lemma RespondIsNeverValidation(op: string)
    ensures forall body :: Respond(op, body) != Error(QueryRequired) && Respond(op, body) != Error(OwnerRepoRequired)
  {
    forall body: Outcome<Json>
      ensures Respond(op, body) != Error(QueryRequired) && Respond(op, body) != Error(OwnerRepoRequired)
    {
      if body.Raised? {
        FailedToIsNotValidation(op, body.message);
      }
    }
  }

  // ---------------------------------------------------------------------------
  // The parameter source

  /** An absent, None or empty parameter source is read as `{}`, so every
      handler reports its required parameters and calls nothing. */
  lemma {:induction false} AbsentParamsAreEmpty(inv: Invocation, client: Client)
    requires !Truthy(if inv.WithParams? then inv.params else inv.action)
    ensures SearchRepositories(inv, client) == Handled(Error(QueryRequired), [])
    ensures GetRepository(inv, client) == Handled(Error(OwnerRepoRequired), [])
    ensures ListIssues(inv, client) == Handled(Error(OwnerRepoRequired), [])
  {
    assert ParamSource(inv) == EmptyObject;
  }

  /** A parameter source that is not a dict raises at the first `.get`. */
  lemma NonDictParams(inv: Invocation, client: Client)
    requires !ParamSource(inv).JObj?
    ensures SearchRepositories(inv, client)
      == Handled(Error(FailedTo(SearchOp, NoAttribute(ParamSource(inv), "get"))), [])
    ensures GetRepository(inv, client)
      == Handled(Error(FailedTo(GetRepositoryOp, NoAttribute(ParamSource(inv), "get"))), [])
    ensures ListIssues(inv, client)
      == Handled(Error(FailedTo(ListIssuesOp, NoAttribute(ParamSource(inv), "get"))), [])
  {
  }

  // ---------------------------------------------------------------------------
  // search_repositories

  /** The query-required error is returned exactly when the parameters are a
      dict, `limit` converts, and `query` is missing or falsy; then nothing is called. */
  lemma SearchQueryRequired(inv: Invocation, client: Client)
    ensures var h := SearchRepositories(inv, client);
      h.result == Error(QueryRequired) <==>
        ParamSource(inv).JObj?
        && Int(GetOr(ParamSource(inv).fields, "limit", JInt(5))).Ok?
        && !Truthy(GetOr(ParamSource(inv).fields, "query", JStr("")))
    ensures var h := SearchRepositories(inv, client);
      h.result == Error(QueryRequired) ==> h.calls == []
  {
    var params := ParamSource(inv);
    match ReadSearchArgs(params)
    case Raised(e) => FailedToIsNotValidation(SearchOp, e);
    case Ok(a) =>
      RespondIsNeverValidation(SearchOp);
  }

  /** `limit` is coerced before `query` is checked: a bad limit is reported
      even when the query is missing, and nothing is called. */
  lemma SearchLimitCoercedFirst(inv: Invocation, client: Client, params: map<string, Json>)
    requires ParamSource(inv) == JObj(params)
    requires Int(GetOr(params, "limit", JInt(5))).Raised?
    ensures SearchRepositories(inv, client)
      == Handled(Error(FailedTo(SearchOp, Int(GetOr(params, "limit", JInt(5))).message)), [])
  {
  }

  /** With a truthy query the client is called once, with the parameters as
      given and `limit = 5`, `sort = "stars"`, `order = "desc"` filled in. */
  lemma SearchCallArguments(inv: Invocation, client: Client, params: map<string, Json>)
    requires ParamSource(inv) == JObj(params)
    requires Int(GetOr(params, "limit", JInt(5))).Ok?
    requires Truthy(GetOr(params, "query", JStr("")))
    ensures SearchRepositories(inv, client).calls == [SearchRepositoriesCall(
      GetOr(params, "query", JStr("")),
      Int(GetOr(params, "limit", JInt(5))).value,
      GetOr(params, "sort", JStr("stars")),
      GetOr(params, "order", JStr("desc")))]
  {
  }

  /** Only `query` given: the client sees the three defaults. */
  lemma SearchDefaults(client: Client, query: string)
    requires query != ""
    ensures SearchRepositories(Bare(JObj(map["query" := JStr(query)])), client).calls
      == [SearchRepositoriesCall(JStr(query), 5, JStr("stars"), JStr("desc"))]
  {
  }

  /** The parameter reads for a query and a limit given as the decimal text of `n`. */
  lemma {:induction false} SearchArgsOfText(query: string, n: int)
    requires |NatDigits(if n < 0 then -n else n)| <= MaxStrDigits
    ensures ReadSearchArgs(JObj(map["query" := JStr(query), "limit" := JStr(Decimal(n))]))
      == Ok(SearchArgs(JStr(query), n, JStr("stars"), JStr("desc")))
  {
    var params := map["query" := JStr(query), "limit" := JStr(Decimal(n))];
    assert GetOr(params, "limit", JInt(5)) == JStr(Decimal(n));
    assert GetOr(params, "query", JStr("")) == JStr(query);
    assert GetOr(params, "sort", JStr("stars")) == JStr("stars");
    assert GetOr(params, "order", JStr("desc")) == JStr("desc");
    IntOfDecimal(n);
  }

  /** A limit sent as the decimal text of `n` reaches the client as `n`,
      for every `n` whose decimal text `str()` can produce. */
  lemma {:induction false} SearchLimitText(client: Client, query: string, n: int)
    requires query != ""
    requires |NatDigits(if n < 0 then -n else n)| <= MaxStrDigits
    ensures SearchRepositories(Bare(JObj(map["query" := JStr(query), "limit" := JStr(Decimal(n))])), client).calls
      == [SearchRepositoriesCall(JStr(query), n, JStr("stars"), JStr("desc"))]
  {
    var params := map["query" := JStr(query), "limit" := JStr(Decimal(n))];
    SearchArgsOfText(query, n);
    assert ParamSource(Bare(JObj(params))) == JObj(params);
  }

  /** A client that raises turns into the operation's error. */
  lemma SearchClientFailure(inv: Invocation, client: Client, call: ClientCall)
    requires SearchRepositories(inv, client).calls == [call]
    requires client(call).Raised?
    ensures SearchRepositories(inv, client).result == Error(FailedTo(SearchOp, client(call).message))
  {
  }

  /** A list of repositories is formatted one entry per record, in order, each
      entry holding exactly the eight summary keys; the first record that is
      not a dict makes the whole action fail instead. */
  lemma {:induction false} SearchFormatsEveryRepository(inv: Invocation, client: Client, call: ClientCall, repos: seq<Json>)
    requires SearchRepositories(inv, client).calls == [call]
    requires client(call) == Ok(JArr(repos))
    ensures var r := SearchRepositories(inv, client).result;
      r.Success? <==> forall i :: 0 <= i < |repos| ==> repos[i].JObj?
    ensures var r := SearchRepositories(inv, client).result;
      r.Success? ==>
        r.result.JObj? && r.result.fields.Keys == {"repositories"}
        && var out := r.result.fields["repositories"];
        out.JArr? && |out.items| == |repos|
        && forall i :: 0 <= i < |repos| ==>
          out.items[i] == JObj(RepositorySummary(repos[i].fields))
          && out.items[i].fields.Keys == RepositoryKeys
    ensures var r := SearchRepositories(inv, client).result;
      forall k :: 0 <= k < |repos| && !repos[k].JObj? && (forall j :: 0 <= j < k ==> repos[j].JObj?) ==>
        r == Error(FailedTo(SearchOp, NoAttribute(repos[k], "get")))
  {
    var f := FormatAll(RepositoryFields, repos);
    assert forall i :: 0 <= i < |repos| ==> (Project(RepositoryFields, repos[i]).Ok? <==> repos[i].JObj?);
    forall k | 0 <= k < |repos| && !repos[k].JObj? && (forall j :: 0 <= j < k ==> repos[j].JObj?)
      ensures f == Raised(NoAttribute(repos[k], "get"))
    {
      FormatAllFirstFailure(RepositoryFields, repos, k);
    }
  }

  /** Whatever the client raised or returned for the one call made decides the
      result: two clients that agree on the recorded calls give the same
      result, so a handler that records no call consulted no client. */
  lemma SearchDependsOnlyOnCalls(inv: Invocation, c1: Client, c2: Client)
    requires forall call :: call in SearchRepositories(inv, c1).calls ==> c1(call) == c2(call)
    ensures SearchRepositories(inv, c1) == SearchRepositories(inv, c2)
  {
  }

  // ---------------------------------------------------------------------------
  // get_repository

  /** The owner-and-repo error is returned exactly when the parameters are a
      dict and `owner` or `repo` is missing or falsy; then nothing is called. */
  lemma GetRepositoryRequired(inv: Invocation, client: Client)
    ensures var h := GetRepository(inv, client);
      h.result == Error(OwnerRepoRequired) <==>
        ParamSource(inv).JObj?
        && (!Truthy(GetOr(ParamSource(inv).fields, "owner", JNull))
            || !Truthy(GetOr(ParamSource(inv).fields, "repo", JNull)))
    ensures var h := GetRepository(inv, client);
      h.result == Error(OwnerRepoRequired) ==> h.calls == []
  {
    var params := ParamSource(inv);
    match ReadRepoArgs(params)
    case Raised(e) => FailedToIsNotValidation(GetRepositoryOp, e);
    case Ok(a) =>
      RespondIsNeverValidation(GetRepositoryOp);
  }

  /** With both names given, the client is called with them and its record is
      returned unchanged under "repository"; what it raises becomes the error. */
  lemma GetRepositoryPassesRecord(inv: Invocation, client: Client, params: map<string, Json>)
    requires ParamSource(inv) == JObj(params)
    requires Truthy(GetOr(params, "owner", JNull)) && Truthy(GetOr(params, "repo", JNull))
    ensures var call := GetRepositoryCall(params["owner"], params["repo"]);
      var h := GetRepository(inv, client);
      && h.calls == [call]
      && (client(call).Ok? ==> h.result == Success(JObj(map["repository" := client(call).value])))
      && (client(call).Raised? ==> h.result == Error(FailedTo(GetRepositoryOp, client(call).message)))
  {
  }

  lemma GetRepositoryDependsOnlyOnCalls(inv: Invocation, c1: Client, c2: Client)
    requires forall call :: call in GetRepository(inv, c1).calls ==> c1(call) == c2(call)
    ensures GetRepository(inv, c1) == GetRepository(inv, c2)
  {
  }

  // ---------------------------------------------------------------------------
  // list_issues

  /** The same owner-and-repo check as `get_repository`, made after `limit`
      has been coerced. */
  lemma ListIssuesRequired(inv: Invocation, client: Client)
    ensures var h := ListIssues(inv, client);
      h.result == Error(OwnerRepoRequired) <==>
        ParamSource(inv).JObj?
        && Int(GetOr(ParamSource(inv).fields, "limit", JInt(10))).Ok?
        && (!Truthy(GetOr(ParamSource(inv).fields, "owner", JNull))
            || !Truthy(GetOr(ParamSource(inv).fields, "repo", JNull)))
    ensures var h := ListIssues(inv, client);
      h.result == Error(OwnerRepoRequired) ==> h.calls == []
  {
    var params := ParamSource(inv);
    match ReadIssuesArgs(params)
    case Raised(e) => FailedToIsNotValidation(ListIssuesOp, e);
    case Ok(a) =>
      RespondIsNeverValidation(ListIssuesOp);
  }

  /** `limit` is coerced before `owner` and `repo` are checked: a bad limit
      is reported even when either is missing, and nothing is called. */
  lemma ListIssuesLimitCoercedFirst(inv: Invocation, client: Client, params: map<string, Json>)
    requires ParamSource(inv) == JObj(params)
    requires Int(GetOr(params, "limit", JInt(10))).Raised?
    ensures ListIssues(inv, client)
      == Handled(Error(FailedTo(ListIssuesOp, Int(GetOr(params, "limit", JInt(10))).message)), [])
  {
  }

  /** A client that raises turns into the operation's error. */
  lemma ListIssuesClientFailure(inv: Invocation, client: Client, call: ClientCall)
    requires ListIssues(inv, client).calls == [call]
    requires client(call).Raised?
    ensures ListIssues(inv, client).result == Error(FailedTo(ListIssuesOp, client(call).message))
  {
  }

  /** With both names given and a convertible limit, the client is called
      once with `state = "open"` and `limit = 10` filled in when absent. */
  lemma ListIssuesCallArguments(inv: Invocation, client: Client, params: map<string, Json>)
    requires ParamSource(inv) == JObj(params)
    requires Int(GetOr(params, "limit", JInt(10))).Ok?
    requires Truthy(GetOr(params, "owner", JNull)) && Truthy(GetOr(params, "repo", JNull))
    ensures ListIssues(inv, client).calls == [GetIssuesCall(
      params["owner"], params["repo"],
      GetOr(params, "state", JStr("open")),
      Int(GetOr(params, "limit", JInt(10))).value)]
  {
  }

  /** A list of issues is formatted one entry per record, in order, each entry
      holding exactly the eight issue keys, precisely when every record can be
      projected; otherwise the first failure is the action's error. */
  lemma {:induction false} ListIssuesFormatsEveryIssue(inv: Invocation, client: Client, call: ClientCall, issues: seq<Json>)
    requires ListIssues(inv, client).calls == [call]
    requires client(call) == Ok(JArr(issues))
    ensures var r := ListIssues(inv, client).result;
      r.Success? <==> forall i :: 0 <= i < |issues| ==> Project(IssueFields, issues[i]).Ok?
    ensures var r := ListIssues(inv, client).result;
      r.Success? ==>
        r.result.JObj? && r.result.fields.Keys == {"issues"}
        && var out := r.result.fields["issues"];
        out.JArr? && |out.items| == |issues|
        && forall i :: 0 <= i < |issues| ==>
          Project(IssueFields, issues[i]) == Ok(out.items[i])
          && out.items[i].JObj? && out.items[i].fields.Keys == IssueKeys
    ensures var r := ListIssues(inv, client).result;
      forall k :: (0 <= k < |issues| && Project(IssueFields, issues[k]).Raised?
                   && (forall j :: 0 <= j < k ==> Project(IssueFields, issues[j]).Ok?)) ==>
        r == Error(FailedTo(ListIssuesOp, Project(IssueFields, issues[k]).message))
  {
    forall k | 0 <= k < |issues| && Project(IssueFields, issues[k]).Raised?
        && (forall j :: 0 <= j < k ==> Project(IssueFields, issues[j]).Ok?)
      ensures FormatAll(IssueFields, issues) == Raised(Project(IssueFields, issues[k]).message)
    {
      FormatAllFirstFailure(IssueFields, issues, k);
    }
  }

  lemma ListIssuesDependsOnlyOnCalls(inv: Invocation, c1: Client, c2: Client)
    requires forall call :: call in ListIssues(inv, c1).calls ==> c1(call) == c2(call)
    ensures ListIssues(inv, c1) == ListIssues(inv, c2)
  {
  }
}
