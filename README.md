# GitHub MCP server: action handlers and GitHub client, modelled in Dafny

The server lets a caller run named actions (`search_repositories`,
`get_repository`, `list_issues`). Each action reaches GitHub through a small
REST client and comes back as a flat result or an error. This project models
the two layers where that logic lives:

- **The action handlers** (`mcp_server.py`). A handler reads the action's
  parameter mapping, where a missing mapping counts as `{}`. It fills in
  defaults, coerces `limit` with `int()` and checks the required parameters
  by Python truthiness. It then calls the client once and projects each
  record onto a fixed set of keys. Whatever is raised along the way becomes
  `Error("Failed to <operation>: <message>")`, so a handler never raises.
- **The GitHub client** (`github_client.py`). Its constructor fixes the base
  URL and the headers. `_make_request` dispatches on the HTTP verb, ignoring
  case, and raises `ValueError` for any verb it does not handle. A non-2xx
  status raises, and 204 is read as `{}`. The operations build their
  endpoint, query and body from their arguments, with the defaults of the
  Python signatures.

Files:

- `json.dfy` (module `Json`): decoded JSON values, Python truthiness,
  `dict.get`, Python's type names and exception texts, and
  `Outcome<T> = Ok | Raised(message)` for "returns, or raises an exception
  whose `str()` is message".
- `coerce.dfy` (module `Coerce`): Python's `int()` on a JSON value, with
  `int(str(n)) == n` proved for every `n` whose decimal text has at most
  4300 digits (beyond that `str(n)` itself raises).
- `handlers.dfy` (module `Handlers`): the three handlers as specification
  functions that return the result and the client calls made, plus the two
  handlers with a formatting loop as methods proved equal to them.
- `handler_properties.dfy` (module `HandlerProperties`): what the handlers
  promise.
- `client.dfy` (module `Client`): the `GitHubClient` class and the request
  and response handling.
- `client_properties.dfy` (module `ClientProperties`): what the client
  promises.

Two things outside the model become parameters. The GitHub client, as the
handlers see it, is a function `Client` from the call made to what it
returned or raised. The HTTP transport is a function `Transport` from the
request sent to the response or the delivery failure. Every handler records
the client calls it made, and every client operation records the requests it
sent. "No upstream call" is therefore a statement about the result, and
lemmas show that the result depends on the oracle only through those records.

Some behaviours of the code are easy to miss:

- The required-parameter error of `get_repository` and `list_issues` is the
  fixed text "Owner and repo parameters are required". It does not name the
  missing parameter.
- `limit` is coerced before the required parameters are checked. A bad
  `limit` is therefore reported as `Failed to ...: <int() message>` even when
  `query` (or `owner`/`repo`) is missing.
- An issue without a `user` key gives `user: None`. An issue whose `user` is
  present but not a dict (None included) makes the action fail with an
  AttributeError.
- The Authorization header uses the `token` scheme: `"token " + api_token`.
- `int()` refuses a well-formed literal of more than 4300 digits (CPython's
  default bound on integer string conversion), so such a `limit` is reported
  as `Failed to ...: Exceeds the limit (4300 digits) ...` and never reaches
  the client.

## Model

| member | source | states |
|---|---|---|
| `Handlers.ParamSource` | mcp_server.py:84 | `getattr(action, 'params', action) or {}`: the result is the given value when that is truthy, and exactly `{}` when it is falsy |
| `Handlers.RepositorySummary` | mcp_server.py:100-109 | a repository summary has exactly the keys name, description, stars, forks, language, url, created_at and updated_at, read with `.get` from full_name, description, stargazers_count, forks_count, language, html_url, created_at and updated_at |
| `Handlers.IssueSummary` | mcp_server.py:163-172 | an issue summary has exactly the keys number, title, state, created_at, updated_at, user, url and comments; url comes from html_url and user is the login found |
| `Json.Truthy` | mcp_server.py:84 | Python's truth test, used by `or {}` (line 84) and by `if not query` and `if not owner or not repo` (lines 91, 130, 154): a value is falsy exactly when it is None, False, 0, "", [] or {} |
| `Json.DictGet` | mcp_server.py:86 | `d.get(key, default)` succeeds exactly when `d` is a dict, giving the stored value or the default; on any other value it raises "'<type>' object has no attribute 'get'" |
| `Handlers.Project` | mcp_server.py:99-109 | one appended entry: a non-dict element raises the `.get` AttributeError; a repository dict gives its summary; an issue dict gives its summary with user = the nested login when `user` is a dict, None when `user` is absent, and raises on the `user` value when it is present but not a dict (mcp_server.py:169) |
| `Handlers.ProjectEach` | mcp_server.py:99 | `for x in container`: a list is formatted element by element and a str character by character; a dict gives `[]` exactly when empty and otherwise raises what projecting any of its (str) keys raises; None, booleans and integers raise "not iterable" |
| `Handlers.FormatAll` | mcp_server.py:98-109 | formatting a list succeeds exactly when every element can be projected; the output then has the same length and order, one projection per element |
| `Handlers.FormatAllFirstFailure` | mcp_server.py:98-109 | when element k is the first that cannot be projected, formatting raises that element's exception |
| `Handlers.ProjectStr` | mcp_server.py:99-101 | projecting a str raises the AttributeError for `.get` on a `str` whatever the str holds, so iterating a non-empty dict (whose elements are its str keys) fails the same way whichever key comes first |
| `Handlers.FormatList` | mcp_server.py:98-109 | the append loop over a list's elements returns what `FormatAll` specifies: every element projected, in order, or the first element's exception |
| `Handlers.FormatEach` | mcp_server.py:98-109 | the formatting loop (`for x in container: formatted.append(...)`) returns what the specification `ProjectEach` says: list elements or str characters projected in order, `[]` for an empty dict, the str error for a non-empty one, "not iterable" for scalars |
| `Handlers.FailedTo` | mcp_server.py:113-116 | every "something raised" message starts with "Failed to <operation>: " |
| `Handlers.Respond` | mcp_server.py:111-116 | the `except Exception` clause: a returned value becomes Success, and an exception with message m becomes `Error("Failed to <op>: " + m)` |
| `Handlers.ReadSearchArgs` | mcp_server.py:86-89 | a non-dict parameter source raises at the first `.get`; on a dict, `int(limit)` (default 5) decides: its exception is raised, or the arguments are query, `int(limit)`, sort and order with the defaults "", "stars" and "desc" |
| `Handlers.SearchRepositories` | mcp_server.py:80-116 | at most one client call, always with a truthy query; no call means an error result; every error is either "Query parameter is required" or starts with "Failed to search repositories: " |
| `Handlers.HandleSearchRepositories` | mcp_server.py:80-116 | the imperative handler, with its formatting loop, returns exactly what `SearchRepositories` specifies |
| `Handlers.ReadRepoArgs` | mcp_server.py:127-128 | a non-dict parameter source raises at the first `.get`; a dict gives owner and repo, None when missing |
| `Handlers.GetRepository` | mcp_server.py:121-141 | at most one client call, always with truthy owner and repo; no call means an error result; every error is the owner-and-repo message or starts with "Failed to get repository: " |
| `Handlers.ReadIssuesArgs` | mcp_server.py:149-152 | a non-dict parameter source raises at the first `.get`; on a dict, `int(limit)` (default 10) decides: its exception is raised, or the arguments are owner, repo, state (default "open") and `int(limit)` |
| `Handlers.ListIssues` | mcp_server.py:143-179 | at most one client call, always with truthy owner and repo; no call means an error result; every error is the owner-and-repo message or starts with "Failed to list issues: " |
| `Handlers.HandleListIssues` | mcp_server.py:143-179 | the imperative handler, with its formatting loop, returns exactly what `ListIssues` specifies |
| `HandlerProperties.FailedToIsNotValidation` | mcp_server.py:92-93 | an error from the except clause can never be confused with either validation message |
| `HandlerProperties.RespondIsNeverValidation` | mcp_server.py:113-116 | no outcome of the try block turns into a validation message through the except clause |
| `HandlerProperties.AbsentParamsAreEmpty` | mcp_server.py:84 | an absent, None or empty parameter source makes search report "Query parameter is required" and the other two report "Owner and repo parameters are required", with no client call |
| `HandlerProperties.NonDictParams` | mcp_server.py:84-86 | a truthy non-dict parameter source raises AttributeError at the first `.get`: every handler returns "Failed to <op>: '<type>' object has no attribute 'get'" and calls nothing |
| `HandlerProperties.SearchQueryRequired` | mcp_server.py:86-93 | "Query parameter is required" is returned if and only if the parameters are a dict, `limit` converts and `query` is missing or falsy; it always comes with no client call |
| `HandlerProperties.SearchLimitCoercedFirst` | mcp_server.py:87 | a `limit` that `int()` rejects is reported as "Failed to search repositories: <int() message>" with no client call, even when `query` is missing |
| `HandlerProperties.SearchCallArguments` | mcp_server.py:86-95 | with a truthy query the client is called once, with query, `int(limit)`, sort and order, and the defaults 5, "stars" and "desc" for missing keys |
| `HandlerProperties.SearchDefaults` | mcp_server.py:87-89 | given only a query, the client receives limit 5, sort "stars" and order "desc" |
| `HandlerProperties.SearchArgsOfText` | mcp_server.py:86-89 | a query with a limit given as the decimal text of n (at most 4300 digits) reads as query, n, "stars" and "desc" |
| `HandlerProperties.SearchLimitText` | mcp_server.py:87 | a limit given as the decimal text of n reaches the client as the integer n, for every n whose decimal text has at most 4300 digits (the bound up to which `str(n)` and `int()` convert) |
| `HandlerProperties.SearchClientFailure` | mcp_server.py:95 | a client that raises message m yields `Error("Failed to search repositories: " + m)` |
| `HandlerProperties.SearchFormatsEveryRepository` | mcp_server.py:98-112 | for a list of records, success holds exactly when every record is a dict; the result is then `{"repositories": [...]}` with one summary per record, in order, each with exactly the eight keys; otherwise the first non-dict record's AttributeError is the error |
| `HandlerProperties.SearchDependsOnlyOnCalls` | mcp_server.py:95 | two clients that answer the recorded calls alike give the same result, so a result with no recorded call consulted no client (and a stub that returns a fixed record gives structurally identical results) |
| `HandlerProperties.GetRepositoryRequired` | mcp_server.py:127-132 | "Owner and repo parameters are required" is returned if and only if the parameters are a dict and owner or repo is missing or falsy; it always comes with no client call |
| `HandlerProperties.GetRepositoryPassesRecord` | mcp_server.py:134-141 | with both names truthy, the client is called once with them; its record comes back unchanged under "repository", and its exception becomes "Failed to get repository: " + message |
| `HandlerProperties.GetRepositoryDependsOnlyOnCalls` | mcp_server.py:134 | the result depends on the client only through the recorded calls |
| `HandlerProperties.ListIssuesRequired` | mcp_server.py:149-156 | "Owner and repo parameters are required" is returned if and only if the parameters are a dict, `limit` converts, and owner or repo is missing or falsy; it always comes with no client call |
| `HandlerProperties.ListIssuesLimitCoercedFirst` | mcp_server.py:152 | a `limit` that `int()` rejects is reported as "Failed to list issues: <int() message>" with no client call, even when owner or repo is missing |
| `HandlerProperties.ListIssuesClientFailure` | mcp_server.py:158 | a client that raises message m yields `Error("Failed to list issues: " + m)` |
| `HandlerProperties.ListIssuesCallArguments` | mcp_server.py:149-158 | the client is called once with owner, repo, state and `int(limit)`, with the defaults "open" and 10 |
| `HandlerProperties.ListIssuesFormatsEveryIssue` | mcp_server.py:158-179 | for a list of issues, success holds exactly when every issue projects; the result is then `{"issues": [...]}` with one summary per issue, in order, each with exactly the eight keys; otherwise the first failure becomes "Failed to list issues: " + its message |
| `HandlerProperties.ListIssuesDependsOnlyOnCalls` | mcp_server.py:158 | the result depends on the client only through the recorded calls |
| `Coerce.StrippedSpace` | mcp_server.py:87 | the whitespace `int()` ignores around a literal is exactly the `str.isspace()` characters except U+001C to U+001F: ASCII tab, LF, VT, FF, CR and space, and the non-ASCII `isspace` characters |
| `Coerce.TrimLeft` | mcp_server.py:87 | the leading strip `int()` applies removes only such whitespace and leaves a result that does not start with it |
| `Coerce.TrimRight` | mcp_server.py:87 | the trailing strip `int()` applies removes only such whitespace and leaves a result that does not end with it |
| `Coerce.IntOfString` | mcp_server.py:87 | `int(s)` succeeds exactly when the stripped text is an optionally signed digit run with single underscores between digits and at most 4300 digits; a malformed text raises "invalid literal for int() with base 10: " followed by the quoted text cut to 200 characters, and a well-formed one with too many digits raises "Exceeds the limit (4300 digits) for integer string conversion: value has <count> digits; ..." |
| `Coerce.ParseUnsigned` | mcp_server.py:87 | an unsigned digit run of at most 4300 digits parses to its base-10 value, underscores ignored |
| `Coerce.ParseNegative` | mcp_server.py:87 | a minus sign followed by such a run parses to the negated value |
| `Coerce.ParsePositive` | mcp_server.py:87 | a leading "+" before a digit run changes nothing: the same value, or the same digit-limit refusal |
| `Coerce.ParsePadded` | mcp_server.py:87 | whitespace around a literal that parses does not change its value |
| `Coerce.ParseTooLong` | mcp_server.py:87 | a digit run of more than 4300 digits is refused with the digit-limit ValueError, which names its digit count |
| `Coerce.Int` | mcp_server.py:87 | `int(x)`: integers pass through, booleans become 1 or 0, strings are parsed, and None, lists and dicts raise the TypeError |
| `Coerce.IntOfDecimal` | mcp_server.py:152 | `int(str(n)) == n` for every integer n whose decimal text has at most 4300 digits, which are exactly the n for which `str(n)` succeeds |
| `Client.Upper` | github_client.py:43 | `method.upper()` keeps the length and upper-cases each ASCII letter in place |
| `Client.VerbOf` | github_client.py:43-52 | the `method.upper() == ...` chain recognises a verb exactly when the upper-cased method is GET, POST, PUT or DELETE, and then the verb whose name that is |
| `Client.VerbOfIgnoresCase` | github_client.py:43-52 | the dispatch picks verb v exactly when the method spells v's name in any letter case |
| `Client.Receive` | github_client.py:54-59 | a delivery failure raises; a non-2xx status raises with that status; 204 gives `{}` without reading the body; any other 2xx gives the parsed body, or raises when it is not JSON |
| `Client.GitHubClient.constructor` | github_client.py:17-22 | the base URL is "https://api.github.com" and the headers are exactly `Authorization: "token " + api_token` and `Accept: application/vnd.github.v3+json`; the fields are constants, so no later operation changes them |
| `Client.GitHubClient.Prepare` | github_client.py:39-52 | the request goes to `base_url + endpoint` with the client's headers and the given query; GET and DELETE carry no body, POST and PUT carry `data`; any other verb raises "Unsupported HTTP method: " + method |
| `Client.GitHubClient.MakeRequest` | github_client.py:25-59 | an unsupported verb sends nothing; otherwise exactly the prepared request is sent and its answer is read by `Receive` |
| `Client.GitHubClient.SearchRepositories` | github_client.py:61-77 | one GET of base_url + "/search/repositories" with query `{q, per_page: limit, sort, order}`, defaults 5, "stars" and "desc"; the reply is the response's items, `[]` when that key is missing, and an AttributeError when the response is not a dict |
| `Client.GitHubClient.GetRepository` | github_client.py:79-90 | one GET of base_url + "/repos/{owner}/{repo}" with no query and no body; the response is returned as it is |
| `Client.GitHubClient.GetIssues` | github_client.py:92-107 | one GET of base_url + "/repos/{owner}/{repo}/issues" with query `{state, per_page: limit}`, defaults "open" and 10 |
| `Client.GitHubClient.CreateIssue` | github_client.py:109-128 | one POST of base_url + "/repos/{owner}/{repo}/issues" whose body has title and body (default ""), plus labels exactly when a non-empty label list is given, and nothing else |
| `ClientProperties.UnsupportedVerbSendsNothing` | github_client.py:51-52 | a verb that is none of the four in any letter case raises the ValueError with no request sent, whatever the transport |
| `ClientProperties.SupportedVerbSendsOne` | github_client.py:39-50 | a supported verb in any letter case sends exactly one request to base_url + endpoint with the client's headers, with the body only for POST and PUT |
| `ClientProperties.NoContentIsEmpty` | github_client.py:56-57 | a 204 reads as `{}` even when its body is not JSON |
| `ClientProperties.NonSuccessRaises` | github_client.py:54 | every non-2xx status raises, classified by its code |
| `ClientProperties.SearchDefaults` | github_client.py:61-62 | given only a query, the search asks for 5 results sorted by stars, descending |
| `ClientProperties.SearchWithoutItems` | github_client.py:77 | a search response with no items key yields `[]` |
| `ClientProperties.GetIssuesDefaults` | github_client.py:92-93 | given only owner and repo, the listing asks for 10 open issues |
| `ClientProperties.SearchDependsOnlyOnSent` | github_client.py:76 | the search's reply depends on the transport only through the request it records as sent |

## Left out

- Handler registration with the `AttributeError` fallback, and `start`/`stop` with the `TypeError` fallback (mcp_server.py:42-77). They bind to an external MCP SDK that is not part of this model.
- `handle_create_issue`, `handle_list_pull_requests`, `handle_get_user_profile` and `handle_list_repos_for_user` are registered (mcp_server.py:49-52) but not defined in the file, so they are not modelled.
- The fallback action classes (mcp_server.py:8-23) appear only as the Success/Error wrapper. The `'ActionErrorResult' in globals()` test is always true, so the plain-dict branches are dead and not modelled. The wrapper's own defaults (`result or {}`, `error or "Unknown error"`) never apply: the result is always a non-empty dict and every message is non-empty.
- Logger setup and logging calls, which have no effect on results.
- `async`/`await`, httpx connection handling and the network. They are concurrency and I/O; the transport is a parameter.
- main.py (configuration and token loading, SDK-bound pass-through handlers) and everything under mcp_server/github_app/ (a separate Django view path not reachable from the handlers).
- The composition of the two layers is not modelled. The handlers pass along whatever JSON values they read, while the client model takes the `str`/`int` arguments its signatures declare. How `f"/repos/{owner}/{repo}"` formats a non-string value is therefore not modelled.
- JSON numbers with a fractional part (Python floats), and `int()` of a float, are not modelled.
- Key order of dicts is not tracked (objects are maps). Iterating over a dict is modelled only through the fact that its elements are str keys.
- Exception texts produced by httpx are not modelled. A status failure carries only its code, and a transport failure carries an opaque detail. The handlers' client oracle supplies the `str(e)` of whatever the client raised.
- Coerce.InvalidLiteral: Python prints `repr(s)`, cut to 200 characters, in the message; the model cuts the same way but takes `s` between single quotes as the repr, with no escaping and no choice of double quotes.
- Coerce.IntOfString: accepts only ASCII digits, while Python's `int()` also accepts other Unicode decimal digits.
- Coerce.IntOfString: the digit bound is CPython's default of 4300 (present since 3.10.7 and 3.11). Changing it with `sys.set_int_max_str_digits` or `PYTHONINTMAXSTRDIGITS` is not modelled, and neither are interpreters without the bound. The model checks the literal's form before its length, as CPython 3.12 and later do; in 3.11 an over-long digit run followed by other characters raised the limit error instead of the invalid-literal one.
- Client.Upper: upper-cases ASCII letters only. Python's `str.upper()` also maps some non-ASCII letters to ASCII (for example 'ſ' to 'S'), which would let an unusual spelling such as "poſt" dispatch as POST.
- Client.Receive: follows current httpx, where `raise_for_status` raises for every status outside 200-299. Some older httpx releases raised only for 4xx and 5xx.
