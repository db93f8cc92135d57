# CoinGecko API client — a Dafny model

This project models the core of `py-coingecko`, a thin Python client for the
CoinGecko REST API (`https://api.coingecko.com/api/v3/`). The client has two
pieces of logic, and the model covers both:

- **The parameter normaliser** (`coingecko/utils.py`). `remove_empty_dict_values`
  drops `None` values. `clean_dict_values` rewrites booleans to `"true"` /
  `"false"` and lists to their comma-joined string, in place. `clean_params`
  composes the two and returns `None` for `None` or `{}`.
- **The request pipeline** (`coingecko/coingecko.py`). `CoinGecko._get` sends
  one GET to `BASE_URL + path` with the cleaned params and the fixed header
  `accept: application/json`. On status 200 it returns the decoded JSON. On any
  other status it logs the failure and then either raises `CoinGeckoAPIError`
  or, with `fail_silently`, returns `None`. `CoinGeckoAPIError.__str__` renders
  `"<status> <json['error'] or raw body>"`. The endpoint methods only pick a
  path and a raw parameter dict; seven of them are modelled.

Files and modules:

- `wrappers.dfy` (`Wrappers`): `Option` and `Result`.
- `text.dfy` (`Text`): Python's `",".join`, `str.split`, `str(int)` and
  `int(str)`, each proved against its inverse.
- `utils.dfy` (`Utils`): the normaliser.
  - Parameter values form the closed type `Value`: `None`, bool, int, str, or list of str.
  - A Python dict is class `Dict`. Its `items` keep insertion order and never repeat a key.
  - The pure functions `RemoveEmpty`, `Render`, `RenderAll` and `Clean` specify the file.
  - The methods `RemoveEmptyDictValues`, `CleanDictValues` (a loop rewriting
    the dict in place) and `CleanParams` follow the three Python functions
    step by step and are proved against those pure functions.
- `json.dfy` (`Json`): decoded JSON documents, `doc["error"]` and Python's `str()` of a decoded value.
- `endpoints.dfy` (`Endpoints`): the (path, raw params) each sampled endpoint
  passes to `_get`. Python's default arguments are Dafny default parameters.
- `client.dfy` (`Client`): responses, the error text, the pure `Classify` and
  `Pipeline`, the `Logger` that records log events, and class `CoinGecko`.
  - `CoinGecko` holds the mutable fields `key` and `failSilently`.
  - Its method `Get` is `_get`, proved against `Pipeline`.
  - Its endpoint methods hand their call to `Get`.

The HTTP transport is a function `Request -> Reply` passed to each call.
What `response.json()` does is part of the response, as a `Parse` with three
cases: a decoded document, a `json.JSONDecodeError`, or another exception.
The two handlers in coingecko/coingecko.py catch different sets of these.
`__str__` (line 27) catches only `JSONDecodeError`; `_get` (line 75) catches
any exception. So a 404 whose `json()` raises a bare exception is logged by
`_get` with its raw body, while `str()` of the error built from it raises.
A Python exception that escapes `_get` is an `Outcome`: `Raised` for
`CoinGeckoAPIError`, `Crashed` for the exceptions `_get` does not catch.
Python's `None` returned by a silent failure is the JSON `null` value
`JNull`, which is the same Python object.

Two places where the code's behaviour differs from a plain reading of its intent:

- Cleaning is idempotent on every non-empty result. It is not idempotent when
  every input value is `None`: the first pass gives `{}` and the second gives
  `None`, because of the `if not params` test (coingecko/utils.py:26).
  `Utils.CleanNotIdempotentOnAllAbsent` states this exception.
- Some endpoints use plain strings with braces. `get_exchange` always requests
  the literal path `exchanges/{id}`. `get_coin_status_updates` requests the
  `market_chart/range` path. The model keeps both as the code has them.

## Model

| member | source | states |
|---|---|---|
| Utils.Store | coingecko/utils.py:15 | after `dic[k] = v`, `k` maps to `v` and every other key maps to what it mapped to before |
| Utils.RemoveEmpty | coingecko/utils.py:6 | the result is never longer than the input and none of its values is `None` |
| Utils.RemoveEmptyEntries | coingecko/utils.py:4-6 | a pair is in the result exactly when it is in the input and its value is not `None` |
| Utils.RemoveEmptyAppend | coingecko/utils.py:6 | filtering distributes over concatenation, so the kept pairs stay in input order |
| Utils.RemoveEmptyIdentity | coingecko/utils.py:6 | the dict comes back unchanged exactly when none of its values is `None` |
| Utils.RemoveEmptyAllAbsent | coingecko/utils.py:6 | a dict whose values are all `None` becomes `{}` |
| Utils.RemoveEmptyKeys | coingecko/utils.py:6 | the result's keys are exactly the input keys with a non-`None` value |
| Utils.RemoveEmptyKeepsDistinct | coingecko/utils.py:6 | the comprehension yields a dict again: keys stay distinct |
| Utils.RemoveEmptyDictValues | coingecko/utils.py:4-6 | builds a fresh dict holding the filtered pairs and leaves the argument untouched |
| Utils.Render | coingecko/utils.py:11-19 | no rendered value is a bool or a list; `None`, int and str pass through unchanged |
| Utils.RenderBool | coingecko/utils.py:13-15 | a bool renders as "true" exactly when true and as "false" exactly when false |
| Utils.RenderListRoundTrip | coingecko/utils.py:17-19 | a non-empty list whose elements hold no comma renders to a string that `split(",")` turns back into the list |
| Utils.RenderListEdges | coingecko/utils.py:17-19 | the rendered list begins with its first element and ends with its last: commas only between elements |
| Utils.RenderListExample | test/utils_test.py:15-21 | `["foo", "bar"]` renders as "foo,bar" |
| Utils.RenderIdempotent | coingecko/utils.py:11-19 | rendering a rendered value changes nothing |
| Utils.RenderAll | coingecko/utils.py:9-21 | same length, every key in its place, no bool or list left, and a value is `None` afterwards exactly when it was before |
| Utils.RenderAllPointwise | coingecko/utils.py:9-21 | every value is rewritten on its own: position `i` of the result is key `i` with value `i` rendered |
| Utils.RenderAllKeys | coingecko/utils.py:9-21 | the key set is unchanged and str and int values pass through |
| Utils.Dict.Set | coingecko/utils.py:15 | `dic[key] = value` keeps the keys distinct and stores by key |
| Utils.StoreAt | coingecko/utils.py:15-19 | assigning to an existing key replaces that pair in its position |
| Utils.CleanDictValues | coingecko/utils.py:9-21 | the loop leaves the same dict holding the rendered pairs (`RenderAll` of the old ones) |
| Utils.Clean | coingecko/utils.py:24-30 | `None` exactly for `None` or `{}`; otherwise a dict no longer than the input whose every value is a str or an int |
| Utils.CleanEmpty | coingecko/utils.py:24-30 | `None` comes back exactly for `None` and `{}`; `{}` comes back exactly for a non-empty dict of `None` values |
| Utils.CleanKeys | coingecko/utils.py:24-30 | output keys are exactly the input keys whose value is not `None` |
| Utils.CleanKeepsKey | coingecko/utils.py:24-30 | a given key is sent exactly when its value is not `None` |
| Utils.CleanSendsAt | coingecko/utils.py:24-30 | the key at a given position is sent exactly when its value is not `None`, and then with that value rendered |
| Utils.LookupAt | coingecko/utils.py:24-30 | in a dict without repeated keys, `dic.get` of the key at a position gives the value at that position |
| Utils.CleanLookup | coingecko/utils.py:24-30 | looking a key up in the output gives the rendered input value, or nothing when it was missing or `None` |
| Utils.CleanIdempotent | coingecko/utils.py:24-30 | re-cleaning a non-empty cleaned dict gives the same dict |
| Utils.CleanNotIdempotentOnAllAbsent | coingecko/utils.py:26-30 | all-`None` input cleans to `{}`, and `{}` cleans to `None` |
| Utils.CleanExample | test/utils_test.py:24-28 | `{"a": None, "b": ["foo","bar"], "c": True}` cleans to `{"b": "foo,bar", "c": "true"}` |
| Utils.CleanParams | coingecko/utils.py:24-30 | returns `None` or a fresh dict whose contents are `Clean` of the argument's, and modifies nothing (no `modifies` clause) |
| Text.Join | coingecko/utils.py:19 | the join of `n` parts is as long as the parts together plus `n - 1` separators; no parts give "" |
| Text.SplitCount | coingecko/utils.py:19 | `split(",")` gives one more part than there are commas in the string |
| Text.SplitJoin | coingecko/utils.py:19 | splitting `",".join(parts)` on "," recovers the parts when no part holds a comma |
| Text.JoinSplit | coingecko/utils.py:19 | joining the split of any string gives the string back |
| Text.JoinEdges | coingecko/utils.py:19 | a join starts with the first part and ends with the last |
| Text.NatToDecimal | coingecko/coingecko.py:29 | `str(n)` is a non-empty digit string with no leading zero |
| Text.DecimalRoundTrip | coingecko/coingecko.py:29 | the digits of `str(n)` read back as `n` |
| Text.IntToDecimal | coingecko/coingecko.py:29 | `str(i)` is non-empty, holds no space, starts with "-" exactly for a negative number, and the rest is digits with no leading zero |
| Text.IntRoundTrip | coingecko/coingecko.py:29 | `int(str(i)) == i` for every integer |
| Json.Subscript | coingecko/coingecko.py:26 | `doc["error"]` succeeds exactly on an object that has the member, returning that member's value, and raises `KeyError` exactly on an object without it |
| Json.Show | coingecko/coingecko.py:29 | `str()` of `null` is "None", of a bool "True" or "False", of a string the string itself, of a number a text that parses back to the number, and of a list or dict a bracketed text |
| Client.ErrorContent | coingecko/coingecko.py:24-28 | the raw body when `json()` raises `JSONDecodeError`; an escaping exception when it raises anything else; for a document, an error exactly when it is not an object or lacks `error`, and otherwise `str()` of the `error` member |
| Client.ErrorText | coingecko/coingecko.py:23-29 | `str(error)` succeeds exactly when its content does and otherwise raises what the content raised |
| Client.ErrorTextReadsBack | coingecko/coingecko.py:23-29 | the error text's first word parses back to the status code and the rest, after one space, is the content |
| Client.ErrorTextExamples | test/coingecko_test.py:26-71 | 404 with `{"error": "Not Found"}` gives "404 Not Found"; a non-JSON body gives "404 Not Found Message Content"; `{"error": 42}` gives "404 42" |
| Client.Headers | coingecko/coingecko.py:54-55 | exactly one header, `accept: application/json`; it reads no client field, so the key is never used |
| Client.BuildRequest | coingecko/coingecko.py:63-67 | the URL is `BASE_URL` followed by the path, so the path reads back from it; the params are the cleaned params and the headers are `_get_headers()` |
| Client.RequestPathsDiffer | coingecko/coingecko.py:64 | different paths give different URLs |
| Client.GetTestRequest | test/coingecko_test.py:15-24 | `_get("test")` sends `https://api.coingecko.com/api/v3/test` with `params=None` |
| Client.DetailsOf | coingecko/coingecko.py:72-76 | the details are the raw body exactly when `json()` does not return a document, whichever exception it raises, and the document otherwise |
| Client.Fail | coingecko/coingecko.py:90-91 | raises `CoinGeckoAPIError` carrying this response and the default empty message |
| Client.Classify | coingecko/coingecko.py:69-88 | logs exactly when the status is not 200; raises `CoinGeckoAPIError`, carrying the response, exactly when the status is not 200 and `fail_silently` is off |
| Client.Pipeline | coingecko/coingecko.py:57-88 | one call logs at most one event, and a client with `fail_silently` never raises `CoinGeckoAPIError` |
| Client.SuccessIsQuiet | coingecko/coingecko.py:69-70 | status 200 ignores `fail_silently` and returns the decoded body exactly when `json()` returns one; otherwise its exception escapes, `JSONDecodeError` or other |
| Client.OneEventPerFailure | coingecko/coingecko.py:69-88 | exactly one event when the status is not 200 and none when it is; a warning exactly when `fail_silently` is off |
| Client.LoudFailureRaises | coingecko/coingecko.py:78-82 | a non-200 status without `fail_silently` logs one warning with status, path and details, then raises an error carrying the response and an empty message |
| Client.SilentFailureReturnsNone | coingecko/coingecko.py:83-88 | a non-200 status with `fail_silently` logs one info event and returns `None` without raising |
| Client.ModesLogTheSame | coingecko/coingecko.py:78-88 | the two modes log the same status, path and details and differ only in level |
| Client.SilentFailureLooksLikeNull | coingecko/coingecko.py:83-88 | a silent failure returns the same value as a 200 response whose body is JSON `null` |
| Client.PingExample | coingecko/coingecko.py:93-95 | `ping` answered by 200 with `{}` returns `{}` and logs nothing |
| Client.NotFoundExample | test/coingecko_test.py:26-56 | a 404 with a decodable body raises "404 Not Found" after one warning; with `fail_silently`, a 404 whose `json()` raises returns `None` after one info event with the raw body, and `str()` of its error would raise |
| Client.CoinGecko.constructor | coingecko/coingecko.py:41-52 | stores the key and the `fail_silently` flag |
| Client.Logger.Warning | coingecko/coingecko.py:79-81 | appends one warning event |
| Client.Logger.Info | coingecko/coingecko.py:84-87 | appends one info event |
| Client.CoinGecko.Get | coingecko/coingecko.py:57-88 | returns `Pipeline`'s outcome for the current `fail_silently` and appends exactly its events to the log |
| Client.CoinGecko.Send | coingecko/coingecko.py:107 | an endpoint's call goes to `_get` as a fresh dict display |
| Client.CoinGecko.GetPing | coingecko/coingecko.py:93-95 | `ping` requests `"ping"` with no params |
| Client.CoinGecko.GetSimplePrice | coingecko/coingecko.py:97-117 | sends the `SimplePrice` call through `_get` |
| Client.CoinGecko.GetCoinsList | coingecko/coingecko.py:146-151 | sends the `CoinsList` call through `_get` |
| Client.CoinGecko.GetCoinById | coingecko/coingecko.py:179-200 | sends the `CoinById` call through `_get` |
| Client.CoinGecko.GetCoinMarketChartRange | coingecko/coingecko.py:255-270 | sends the `CoinMarketChartRange` call through `_get` |
| Client.CoinGecko.GetCoinStatusUpdates | coingecko/coingecko.py:272-285 | sends the `CoinStatusUpdates` call through `_get` |
| Client.CoinGecko.GetExchange | coingecko/coingecko.py:360-362 | requests `"exchanges/{id}"` with no params, whatever the id |
| Client.SilentAfterReassignment | test/coingecko_test.py:44-56 | after `fail_silently` is set to true on a live client, a 404 returns `None` |
| Endpoints.Ping | coingecko/coingecko.py:93-95 | `ping` requests "ping" and passes no params |
| Endpoints.SimplePrice | coingecko/coingecko.py:97-117 | the path is "simple/price"; a display with distinct keys in which `ids` and `vs_currencies` hold the two lists as given |
| Endpoints.LowerStr | coingecko/coingecko.py:150 | `str(b).lower()` is "none", "true" or "false", each for exactly one argument |
| Endpoints.CoinsList | coingecko/coingecko.py:146-151 | the path is "coins/list"; exactly one param, `include_platform`, and it is already a string |
| Endpoints.CoinById | coingecko/coingecko.py:179-200 | the path is `coins/` followed by the id, and the params display has distinct keys |
| Endpoints.CoinMarketChartRange | coingecko/coingecko.py:255-270 | the path is `coins/<id>/market_chart/range`; three params with distinct keys, every one a string |
| Endpoints.CoinStatusUpdates | coingecko/coingecko.py:272-285 | the path is `coins/<id>/market_chart/range`, as at line 280; a display with distinct keys whose every value is `None` or an int |
| Endpoints.Exchange | coingecko/coingecko.py:360-362 | `get_exchange` passes no params |
| Endpoints.SimplePriceExample | coingecko/coingecko.py:107-117 | `get_simple_price(["bitcoin","ethereum"], ["usd"])` requests "simple/price" with exactly `ids=bitcoin,ethereum` and `vs_currencies=usd` |
| Endpoints.SimplePriceKeys | coingecko/coingecko.py:107-117 | it always sends `ids` and `vs_currencies`, each as its list comma-joined; each `include_*` flag exactly when given, under its own name, as "true" or "false" according to its value; and no other key |
| Endpoints.FlagSent | coingecko/utils.py:9-30 | an optional bool in a params dict is sent exactly when given, as "true" or "false" according to its value |
| Endpoints.CoinsListSendsPlatform | coingecko/coingecko.py:146-151 | `include_platform` is always sent, as "none", "true" or "false" according to the argument |
| Endpoints.CoinByIdPathsDiffer | coingecko/coingecko.py:191 | the id is substituted into `coins/{id}`: different ids give different paths |
| Endpoints.CoinByIdSends | coingecko/coingecko.py:179-200 | each of the six flags is sent exactly when given, under its own name, as "true" or "false" according to its value, and no other key is sent |
| Endpoints.CoinByIdDefaults | coingecko/coingecko.py:179-200 | with the default arguments exactly `localization=false` and `tickers=false` are sent |
| Endpoints.CoinMarketChartRangeSends | coingecko/coingecko.py:265-269 | `vs_currency`, `from` and `to` are always sent, in that order, with the arguments unchanged |
| Endpoints.StatusUpdatesSendsPages | coingecko/coingecko.py:279-285 | `per_page` and `page` are each sent exactly when given, as the given int, and nothing else is sent |
| Endpoints.ExchangeIgnoresId | coingecko/coingecko.py:360-362 | the call, literal path `exchanges/{id}` included, is the same for every id |
| Endpoints.StatusUpdatesReuseRangePath | coingecko/coingecko.py:272-285 | `get_coin_status_updates` requests the same path as `get_coin_market_chart_range` |

## Left out

- Real HTTP (`requests.get`): the transport is a function from request to reply. Query-string encoding of the params is the transport's job and is not modelled.
- JSON decoding: what `response.json()` does is given as a `Parse`. JSON numbers are integers only; floats are not modelled.
- Decoding `response.content` to text: the body is given as text, so a `UnicodeDecodeError` from `.decode()` is not modelled.
- The logging module: log calls are recorded as events by level, status, path and details; the message wording is not modelled.
- Json.Show: for an `error` member that is a list or dict, the contract states only that the text is bracketed ("[...]" or "{...}"), not which elements it lists; the body also renders nested strings without Python's escaping and quote choice.
- Json.Json: an object may hold a repeated member name and `Field` takes the first, whereas `json.loads` keeps the last; decoded documents never repeat a name, so the two agree on them.
- Utils.Value: list elements are strings, so `str(i)` on each element is the identity. Lists of other types are not modelled.
- Utils.Dict: the constructor requires distinct keys. Every dict display in the modelled endpoint methods has distinct keys; a Python display that repeats a key, which keeps the last value, is not modelled.
- The remaining endpoint methods of coingecko/coingecko.py (`get_simple_token_price`, `get_coins_markets`, `get_coin_tickers`, and the others up to `get_companies`): each builds a path and a params dict the same way as the seven modelled ones.
- Exception objects beyond their data: `CoinGeckoAPIError` is the response and message it carries; Python's exception machinery is the `Outcome` type.
- `setup.py`: packaging only.
