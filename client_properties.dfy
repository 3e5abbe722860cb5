/**
 What the GitHub client promises: the verb is matched without regard to
 case and anything else is refused before a request is sent, the request
 goes to the base URL followed by the endpoint with the fixed headers, the
 defaults fill the query, and the response is read the same way whichever
 operation asked for it.
 */
module ClientProperties {
  import opened Json
  import opened Client

  /** A verb outside GET, POST, PUT and DELETE raises the ValueError and
      sends nothing, whatever the transport would have answered. */
  lemma UnsupportedVerbSendsNothing(c: GitHubClient, t1: Transport, t2: Transport, httpMethod: string,
                                    endpoint: string, params: Option<map<string, Json>>, data: Option<map<string, Json>>)
    requires forall v :: !SameIgnoringCase(httpMethod, VerbName(v))
    ensures c.MakeRequest(t1, httpMethod, endpoint, params, data)
      == c.MakeRequest(t2, httpMethod, endpoint, params, data)
      == Exchange(Failed(ValueError("Unsupported HTTP method: " + httpMethod)), [])
  {
    VerbOfIgnoresCase(httpMethod, Get);
    VerbOfIgnoresCase(httpMethod, Post);
    VerbOfIgnoresCase(httpMethod, Put);
    VerbOfIgnoresCase(httpMethod, Delete);
  }

  /** A supported verb in any letter case sends exactly one request, to
      `base_url + endpoint`, with the client's headers; only POST and PUT
      carry the body. */
  lemma {:induction false} SupportedVerbSendsOne(c: GitHubClient, t: Transport, httpMethod: string, v: Verb,
                                                 endpoint: string, params: Option<map<string, Json>>, data: Option<map<string, Json>>)
    requires SameIgnoringCase(httpMethod, VerbName(v))
    ensures c.MakeRequest(t, httpMethod, endpoint, params, data).sent
      == [HttpRequest(v, c.baseUrl + endpoint, c.headers, params, if v == Post || v == Put then data else None)]
  {
    VerbOfIgnoresCase(httpMethod, v);
  }

  /** A 204 reads as `{}` whatever its body, even one that is not JSON. */
  lemma NoContentIsEmpty(body: Option<Json>)
    ensures Receive(Delivered(HttpResponse(204, body))) == Done(EmptyObject)
  {
  }

  /** Every non-2xx status raises, classified by the status code. */
  lemma NonSuccessRaises(status: int, body: Option<Json>)
    requires status < 200 || 300 <= status
    ensures Receive(Delivered(HttpResponse(status, body))) == Failed(HttpStatusError(status))
  {
  }

  /** Called with the query alone, the search asks for 5 results sorted by
      stars in descending order. */
  lemma SearchDefaults(c: GitHubClient, t: Transport, query: string)
    ensures c.SearchRepositories(t, query).sent[0].params
      == Some(map["q" := JStr(query), "per_page" := JInt(5), "sort" := JStr("stars"), "order" := JStr("desc")])
  {
  }

  /** A search response without `items` yields the empty list. */
  lemma SearchWithoutItems(c: GitHubClient, t: Transport, query: string, limit: int, sort: string, order: string,
                           fields: map<string, Json>)
    requires "items" !in fields
    requires Receive(t(c.SearchRepositories(t, query, limit, sort, order).sent[0])) == Done(JObj(fields))
    ensures c.SearchRepositories(t, query, limit, sort, order).reply == Done(JArr([]))
  {
  }

  /** Called with owner and repo alone, the issue listing asks for 10 open issues. */
  lemma GetIssuesDefaults(c: GitHubClient, t: Transport, owner: string, repo: string)
    ensures c.GetIssues(t, owner, repo).sent[0].params
      == Some(map["state" := JStr("open"), "per_page" := JInt(10)])
  {
  }

  /** An operation's reply depends on the transport only through the
      requests it records as sent. */
  lemma SearchDependsOnlyOnSent(c: GitHubClient, t1: Transport, t2: Transport, query: string, limit: int,
                                sort: string, order: string)
    requires forall r :: r in c.SearchRepositories(t1, query, limit, sort, order).sent ==> t1(r) == t2(r)
    ensures c.SearchRepositories(t1, query, limit, sort, order) == c.SearchRepositories(t2, query, limit, sort, order)
  {
  }
}
