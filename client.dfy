/**
 The GitHub REST client: one request per operation against
 https://api.github.com, with a token Authorization header and the v3 Accept
 header. `_make_request` dispatches on the HTTP verb, raises for an
 unsupported one, raises for a non-success status, and reads `{}` for
 204 No Content without touching the body.

 The transport (httpx and the network) is an oracle from the request sent to
 the response received or the transport failure; every operation reports
 the requests it sent.
 */
module Client {
  import opened Json

  datatype Verb = Get | Post | Put | Delete

  /** The request handed to the transport: verb, full URL, headers, query
      parameters (`params=`) and JSON body (`json=`). */
  datatype HttpRequest = HttpRequest(
    verb: Verb,
    url: string,
    headers: map<string, string>,
    params: Option<map<string, Json>>,
    json: Option<map<string, Json>>)

  /** A response: its status code and its body, `None` when the body is not valid JSON. */
  datatype HttpResponse = HttpResponse(status: int, body: Option<Json>)

  datatype Delivery = Delivered(response: HttpResponse) | Unreachable(detail: string)

  /** httpx and the network: what comes back for a request. */
  type Transport = HttpRequest -> Delivery

  /** What a client operation raises. */
  datatype Failure =
    | ValueError(message: string)        // unsupported HTTP verb
    | HttpStatusError(status: int)       // raise_for_status on a non-2xx response
    | TransportError(detail: string)     // the request could not be delivered
    | JsonDecodeError                    // response.json() on a body that is not JSON
    | AttributeError(message: string)    // .get on a response that is not a dict

  datatype Reply<+T> = Done(value: T) | Failed(failure: Failure)

  /** An operation's reply together with the requests it sent, in order. */
  datatype Exchange = Exchange(reply: Reply<Json>, sent: seq<HttpRequest>)

  const ApiBase: string := "https://api.github.com"
  const AcceptV3: string := "application/vnd.github.v3+json"

  function UpperChar(c: char): char
  {
    if 'a' <= c <= 'z' then (c as int - 'a' as int + 'A' as int) as char else c
  }

  /** `s.upper()` for ASCII letters. */
  function Upper(s: string): (r: string)
    ensures |r| == |s| && forall i :: 0 <= i < |s| ==> r[i] == UpperChar(s[i])
  {
    if s == [] then [] else [UpperChar(s[0])] + Upper(s[1..])
  }

  function VerbName(v: Verb): string
  {
    match v
    case Get => "GET"
    case Post => "POST"
    case Put => "PUT"
    case Delete => "DELETE"
  }

  /** The `method.upper() == ...` chain of `_make_request`. */
  function VerbOf(httpMethod: string): (r: Option<Verb>)
    ensures r.Some? <==> Upper(httpMethod) in {"GET", "POST", "PUT", "DELETE"}
    ensures r.Some? ==> VerbName(r.value) == Upper(httpMethod)
  {
    var m := Upper(httpMethod);
    if m == "GET" then Some(Get)
    else if m == "POST" then Some(Post)
    else if m == "PUT" then Some(Put)
    else if m == "DELETE" then Some(Delete)
    else None
  }

  /** Equality up to the case of ASCII letters. */
  predicate SameIgnoringCase(a: string, b: string)
  {
    |a| == |b| && forall i :: 0 <= i < |a| ==> UpperChar(a[i]) == UpperChar(b[i])
  }

  /** The verb is recognised exactly when the method names it in any letter case. */
  lemma VerbOfIgnoresCase(httpMethod: string, v: Verb)
    ensures VerbOf(httpMethod) == Some(v) <==> SameIgnoringCase(httpMethod, VerbName(v))
  {
    var m := Upper(httpMethod);
    var name := VerbName(v);
    assert Upper(name) == name;
    if SameIgnoringCase(httpMethod, name) {
      assert m == name;
    }
  }

  /** What `_make_request` does with the transport's answer: a failed
      delivery or a non-2xx status raises, 204 reads as `{}` without looking
      at the body, and any other success parses the body. */
  function Receive(d: Delivery): (r: Reply<Json>)
    ensures d.Unreachable? ==> r == Failed(TransportError(d.detail))
    ensures d.Delivered? && !(200 <= d.response.status < 300) ==> r == Failed(HttpStatusError(d.response.status))
    ensures d.Delivered? && d.response.status == 204 ==> r == Done(EmptyObject)
    ensures d.Delivered? && 200 <= d.response.status < 300 && d.response.status != 204 ==>
      r == (match d.response.body case Some(j) => Done(j) case None => Failed(JsonDecodeError))
  {
    match d
    case Unreachable(detail) => Failed(TransportError(detail))
    case Delivered(response) =>
      if !(200 <= response.status < 300) then Failed(HttpStatusError(response.status))
      else if response.status == 204 then Done(EmptyObject)
      else match response.body
        case Some(j) => Done(j)
        case None => Failed(JsonDecodeError)
  }

  /** The JSON list a list of strings is sent as. */
  function Strings(ss: seq<string>): (r: Json)
    ensures r.JArr? && |r.items| == |ss| && forall i :: 0 <= i < |ss| ==> r.items[i] == JStr(ss[i])
  {
    JArr(seq(|ss|, i requires 0 <= i < |ss| => JStr(ss[i])))
  }

  /** The endpoint of one repository, `f"/repos/{owner}/{repo}"`. */
  function RepoPath(owner: string, repo: string): string
  {
    "/repos/" + owner + "/" + repo
  }

  /** The endpoint of a repository's issues, `f"/repos/{owner}/{repo}/issues"`. */
  function IssuesPath(owner: string, repo: string): string
  {
    RepoPath(owner, repo) + "/issues"
  }

  class GitHubClient {
    const apiToken: string
    const baseUrl: string
    const headers: map<string, string>

    /** The fields are fixed here and, being constants, never change afterwards. */
    constructor (apiToken: string)
      ensures this.apiToken == apiToken && baseUrl == ApiBase
      ensures headers == map["Authorization" := "token " + apiToken, "Accept" := AcceptV3]
    {
      this.apiToken := apiToken;
      baseUrl := ApiBase;
      headers := map["Authorization" := "token " + apiToken, "Accept" := AcceptV3];
    }

    /** The request `_make_request` builds, or the ValueError it raises for a
        verb other than GET, POST, PUT and DELETE. */
    function Prepare(httpMethod: string, endpoint: string, params: Option<map<string, Json>>,
                     data: Option<map<string, Json>>): (r: Reply<HttpRequest>)
      ensures r.Failed? <==> VerbOf(httpMethod).None?
      ensures r.Failed? ==> r.failure == ValueError("Unsupported HTTP method: " + httpMethod)
      ensures r.Done? ==>
        && r.value.verb == VerbOf(httpMethod).value
        && r.value.url == baseUrl + endpoint
        && r.value.headers == headers
        && r.value.params == params
        && r.value.json == (if r.value.verb == Post || r.value.verb == Put then data else None)
    {
      var url := baseUrl + endpoint;
      match VerbOf(httpMethod)
      case Some(Get) => Done(HttpRequest(Get, url, headers, params, None))
      case Some(Post) => Done(HttpRequest(Post, url, headers, params, data))
      case Some(Put) => Done(HttpRequest(Put, url, headers, params, data))
      case Some(Delete) => Done(HttpRequest(Delete, url, headers, params, None))
      case None => Failed(ValueError("Unsupported HTTP method: " + httpMethod))
    }

    /** `_make_request`: at most one request sent, and none for an unsupported verb. */
    function MakeRequest(transport: Transport, httpMethod: string, endpoint: string,
                         params: Option<map<string, Json>> := None,
                         data: Option<map<string, Json>> := None): (x: Exchange)
      ensures VerbOf(httpMethod).None? ==>
        x == Exchange(Failed(ValueError("Unsupported HTTP method: " + httpMethod)), [])
      ensures VerbOf(httpMethod).Some? ==>
        |x.sent| == 1 && Prepare(httpMethod, endpoint, params, data) == Done(x.sent[0])
        && x.reply == Receive(transport(x.sent[0]))
    {
      match Prepare(httpMethod, endpoint, params, data)
      case Failed(f) => Exchange(Failed(f), [])
      case Done(request) => Exchange(Receive(transport(request)), [request])
    }

    /** `search_repositories`: the `items` of the search response, or `[]`
        when the response has none. */
    function SearchRepositories(transport: Transport, query: string, limit: int := 5,
                                sort: string := "stars", order: string := "desc"): (x: Exchange)
      ensures x.sent == [HttpRequest(Get, baseUrl + "/search/repositories", headers,
        Some(map["q" := JStr(query), "per_page" := JInt(limit), "sort" := JStr(sort), "order" := JStr(order)]),
        None)]
      ensures var answer := Receive(transport(x.sent[0]));
        && (answer.Failed? ==> x.reply == answer)
        && (answer.Done? && answer.value.JObj? ==>
              x.reply == Done(if "items" in answer.value.fields then answer.value.fields["items"] else JArr([])))
        && (answer.Done? && !answer.value.JObj? ==>
              x.reply == Failed(AttributeError(NoAttribute(answer.value, "get"))))
    {
      var params := map["q" := JStr(query), "per_page" := JInt(limit), "sort" := JStr(sort), "order" := JStr(order)];
      var x := MakeRequest(transport, "GET", "/search/repositories", params := Some(params));
      match x.reply
      case Failed(_) => x
      case Done(response) =>
        match DictGet(response, "items", JArr([]))
        case Ok(items) => Exchange(Done(items), x.sent)
        case Raised(e) => Exchange(Failed(AttributeError(e)), x.sent)
    }

    /** `get_repository`: one GET of the repository, no query, no body. */
    function GetRepository(transport: Transport, owner: string, repo: string): (x: Exchange)
      ensures x.sent == [HttpRequest(Get, baseUrl + RepoPath(owner, repo), headers, None, None)]
      ensures x.reply == Receive(transport(x.sent[0]))
    {
      MakeRequest(transport, "GET", RepoPath(owner, repo))
    }

    /** `get_issues`: one GET of the repository's issues; the response is returned as it is. */
    function GetIssues(transport: Transport, owner: string, repo: string,
                       state: string := "open", limit: int := 10): (x: Exchange)
      ensures x.sent == [HttpRequest(Get, baseUrl + IssuesPath(owner, repo), headers,
        Some(map["state" := JStr(state), "per_page" := JInt(limit)]), None)]
      ensures x.reply == Receive(transport(x.sent[0]))
    {
      MakeRequest(transport, "GET", IssuesPath(owner, repo),
                  params := Some(map["state" := JStr(state), "per_page" := JInt(limit)]))
    }

    /** `create_issue`: one POST whose body holds the title and the body text,
        and the labels only when some are given. */
    method CreateIssue(transport: Transport, owner: string, repo: string, title: string,
                       body: string := "", labels: Option<seq<string>> := None) returns (x: Exchange)
      ensures |x.sent| == 1
      ensures var request := x.sent[0];
        && request.verb == Post
        && request.url == baseUrl + IssuesPath(owner, repo)
        && request.headers == headers
        && request.params == None
        && request.json.Some?
      ensures var data := x.sent[0].json.value;
        && data.Keys <= {"title", "body", "labels"}
        && "title" in data && data["title"] == JStr(title)
        && "body" in data && data["body"] == JStr(body)
        && ("labels" in data <==> labels.Some? && labels.value != [])
        && ("labels" in data ==> data["labels"] == Strings(labels.value))
      ensures x.reply == Receive(transport(x.sent[0]))
    {
      var data := map["title" := JStr(title), "body" := JStr(body)];
      if labels.Some? && labels.value != [] {
        data := data["labels" := Strings(labels.value)];
      }
      x := MakeRequest(transport, "POST", IssuesPath(owner, repo), data := Some(data));
    }
  }
}
