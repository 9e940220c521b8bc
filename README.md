# Prometheus and OpenStack helper functions, modelled in Dafny

This project models two helper modules of a collection of cloud-operations
notebooks.

- `misc/prometheus.py` is a small client for the Prometheus HTTP API:
  - `init` loads the per-cloud settings (`auth_data`) and defaults
    `verify_cert` to `True`;
  - `request_data` sends a GET with an optional stored bearer token. When
    the server redirects to a Keycloak login page, it takes the token
    endpoint and `client_id` from the redirect, posts a password grant with
    the cloud's `keystone_auth` credentials, and repeats the GET with the new
    token;
  - `q` builds an instant-query or range-query URL from the templates, with
    the query percent-encoded by `urllib.parse.quote`, and returns the JSON
    or its series (`data_to_df`);
  - `get_metrics` requests the list of metric names.
- `misc/openstack_helpers.py` reads the output of the OpenStack CLIs:
  - `parse_cmd_output` reads pipe-delimited tables;
  - `flatten_object` flattens nested dicts into `_`-joined keys;
  - `munch_to_dataframe` collects objects into a sparse table keyed by
    (id, column);
  - `read_pepperrc` reads the `SALTAPI...=value` settings of a pepper file.

Modules:

- `Values` holds the decoded JSON/YAML objects (`Value`, with a dict as the
  ordered list of its entries) and the exceptions the code can raise
  (`Error`, inside `Result`). It also has Python's `d[k]`, `str` and `repr`.
- `Text` holds `str.strip`, `startswith`, `find`, `split`, `split(c, 1)`,
  `join` and slicing with a negative bound.
- `UrlQuote` holds `urllib.parse.quote` with its defaults (UTF-8, with safe
  characters as in section 2.3 of RFC 3986 plus `/`), and its decoding
  partner.
- `PromUrls` holds the three URL templates, the range-query time window, and
  `urlparse(...).query` with `parse_qs`.
- `PromSeries` holds `data_to_df` as the list of named series it builds.
- `Prometheus` holds the module state as class `Client`, with fields
  `authData` and `authTokens` and methods `Init`, `RequestData`, `Query`
  and `GetMetrics`. Each method is proved against a function of the state
  and of the server: `Defaults`, `Fetch`, `QueryOf` and `MetricsOf`.
- `OpenstackHelpers` holds the four OpenStack helpers. The loops of
  `flatten_object`, `munch_to_dataframe` and `read_pepperrc` are methods
  proved against functions that specify them (`Flattened`, `Munched` and
  `Pepperrc`).

The HTTP client is a pair of function parameters, `get` and `post`. Each
maps a request to the response the server gives: the final URL after
redirects and the JSON body, or `None` when the body is not JSON. The
request methods return the sequence of requests they send, so the
properties can speak about what is sent as well as about what is returned.

Some modelled behaviour follows the code rather than its evident intent:

- When a redirect URL has no `auth?`, `find` gives -1, so the token endpoint
  is the URL without its last character, followed by `token`.
- The retried GET after a Keycloak grant passes no `verify` argument. It
  therefore uses the HTTP client's default certificate check, not the
  cloud's `verify_cert`.
- `raise "Unknown output format"` raises a TypeError in Python 3, because a
  string is not an exception. The model returns that TypeError, after the
  request has been made.
- Nothing in the module writes `auth_tokens`. A token obtained from Keycloak
  is used for one retry and then dropped.
- In `parse_cmd_output`, one line without a `|` switches the whole output to
  the stripped-lines reading. This includes the lines that do hold a `|`.
- One fetch sends up to three requests: the first GET, the POST to the
  token endpoint, and the retried GET.
- The only login is the password grant; `init`'s `selenium_path` is unused.
- Failures are Python's own exceptions: KeyError for a missing key, the
  JSON decode error for a body that is not JSON, TypeError and ValueError.

## Model

| member | source | states |
|---|---|---|
| Values.PyStr | misc/prometheus.py:46 | `str(v)` of a decoded value, as the bearer f-string and the list join use it; its rules are stated by PyStrScalars, PyStrContainers and PyReprQuotes |
| Values.PyRepr | misc/openstack_helpers.py:50 | `repr(v)`, which `str` of a list or dict applies to its items |
| Values.JoinStr | misc/openstack_helpers.py:50 | `', '.join(str(x) for x in xs)`; JoinStrIsJoin ties it to `str.join` |
| Values.PyStrScalars | misc/openstack_helpers.py:50 | `str` gives `None`, `True`, `False`, a string itself, and an int as an optional `-` then digits that read back as its magnitude |
| Values.NatToStringRoundTrip | misc/openstack_helpers.py:50 | the decimal digits of a natural number read back as that number and have no leading zero |
| Values.PyStrContainers | misc/openstack_helpers.py:50 | `str` of a list is bracketed by `[` and `]`, of a dict by `{` and `}` |
| Values.PyReprQuotes | misc/openstack_helpers.py:50 | `repr` puts a string between single quotes and otherwise agrees with `str` |
| Values.Index | misc/prometheus.py:39-40 | `v[k]` succeeds exactly on a dict holding `k` and gives its value; KeyError(k) exactly on a dict without `k`; any other object fails |
| Values.GetIsLast | misc/prometheus.py:39 | a dict lookup finds nothing exactly when no entry has the key, otherwise the value of the last entry with that key |
| Text.StripIsTrimmedSlice | misc/openstack_helpers.py:11 | `strip()` is the slice left after removing only white space at both ends, and neither end of the result is white space |
| Text.StripIdempotent | misc/openstack_helpers.py:13 | stripping a stripped string changes nothing |
| Text.StripLeftRemovesSpaces | misc/openstack_helpers.py:13 | `lstrip` removes only white space |
| Text.StripRightRemovesSpaces | misc/openstack_helpers.py:13 | `rstrip` removes only white space |
| Text.FindCharIsFirst | misc/openstack_helpers.py:85 | finding a character gives -1 exactly when it is absent, otherwise the index of its first occurrence |
| Text.Find | misc/prometheus.py:36 | `s.find(pat)` is the first index at which `pat` occurs, and -1 exactly when it occurs nowhere |
| Text.Split | misc/openstack_helpers.py:11 | `split` gives at least one piece, at least two when the separator occurs, and no piece holds the separator |
| Text.JoinSnoc | misc/openstack_helpers.py:50 | joining one more piece at the end appends the separator and the piece |
| Text.SplitAtFirst | misc/openstack_helpers.py:11 | a string holding the separator splits into the text before its first occurrence and the pieces of the rest |
| Text.JoinSplit | misc/openstack_helpers.py:11 | joining the pieces of a split with the separator gives back the string |
| Text.SplitJoin | misc/openstack_helpers.py:11 | splitting a join of separator-free pieces gives back the pieces |
| Text.SplitLength | misc/openstack_helpers.py:11 | a split has one more piece than the string has separators |
| Text.SplitCons | misc/openstack_helpers.py:11 | the first piece of a split is the text before the first separator |
| Text.SplitOnceHalves | misc/openstack_helpers.py:85 | `split('=', 1)` cannot be unpacked into two names exactly when there is no `=`; otherwise the halves are the text before and after the first `=` |
| UrlQuote.Quote | misc/prometheus.py:63 | `urllib.parse.quote(q)`: UTF-8 then percent-escaping; its properties are QuoteRoundTrip, QuoteHasNoDelimiters and QuoteSafeIsIdentity |
| UrlQuote.QuoteBytes | misc/prometheus.py:63 | quoted text consists of safe characters, `%` and upper-case hex digits only |
| UrlQuote.QuoteHasNoDelimiters | misc/prometheus.py:69 | a quoted query holds no space, `&`, `=`, `?`, `#` or `+` |
| UrlQuote.QuoteSafeIsIdentity | misc/prometheus.py:69 | a query made only of safe characters is quoted unchanged |
| UrlQuote.QuoteAppend | misc/prometheus.py:69 | quoting works character by character |
| UrlQuote.Utf8RoundTrip | misc/prometheus.py:63 | strict UTF-8 decoding of the UTF-8 encoding gives back the string |
| UrlQuote.PercentRoundTrip | misc/prometheus.py:63 | percent-decoding the quoted bytes gives back the bytes |
| UrlQuote.DecodeFirstOfEncoded | misc/prometheus.py:63 | the decoder reads back the first encoded character and its byte length |
| UrlQuote.QuoteRoundTrip | misc/prometheus.py:63 | unquoting a quoted query gives back the query |
| PromUrls.UrlQuery | misc/prometheus.py:37 | `urlparse(u).query`: the text after the first `?` of the part before the first `#` |
| PromUrls.ParseQsl | misc/prometheus.py:37 | `parse_qsl` with its defaults: the `&`-separated pieces, dropping blank values; FieldOfIsPair and the round-trip lemmas state its reading |
| PromUrls.InstantUrl | misc/prometheus.py:15 | the instant-query template; InstantUrlRoundTrip states what a server reads back |
| PromUrls.RangeUrl | misc/prometheus.py:16 | the range-query template; RangeUrlRoundTrip states what a server reads back |
| PromUrls.MetricsUrl | misc/prometheus.py:17 | the metric-names template; MetricsUrlHasNoQuery states it has no query string |
| PromUrls.FieldOfIsPair | misc/prometheus.py:37 | a query piece yields a field only as `name=value`, with a name free of `=` and a non-empty value |
| PromUrls.ValuesOfNamed | misc/prometheus.py:37 | `parse_qs(...)[name]` holds exactly the values of the fields with that name |
| PromUrls.ClientIds | misc/prometheus.py:37 | the `client_id` values of a redirect are non-empty, or the lookup raises KeyError('client_id') |
| PromUrls.FloatSecondsChars | misc/prometheus.py:64-66 | a time value in the range template is written with a sign, digits and a point only |
| PromUrls.RangeWindow | misc/prometheus.py:51-61 | a `dates_range` dict supplies start, step and period; an explicit start begins the window; otherwise the window ends now; it always lasts one period |
| PromUrls.QueryFieldOf | misc/prometheus.py:15 | the `query=` parameter is one field, dropped by `parse_qsl` when the query is empty |
| PromUrls.InstantUrlRoundTrip | misc/prometheus.py:15 | an instant-query URL is the API path under the base URL, then `?`, then one `query` field whose decoded value is the caller's query |
| PromUrls.RangeUrlRoundTrip | misc/prometheus.py:16 | a range-query URL is the API path under the base URL, and a server reads back the fields query, start, end and step in that order |
| PromUrls.NoFragmentInRangeQuery | misc/prometheus.py:16 | the range query string holds no `#`, so no part of it is taken for a fragment |
| PromUrls.MetricsUrlHasNoQuery | misc/prometheus.py:17 | the metric-names URL carries no query string |
| PromSeries.ColumnName | misc/prometheus.py:89-109 | the column name with both `try`/`except KeyError` branches; stated by UnlabelledName, LabelledName, VectorMissingLabelFails and MatrixMissingLabelIsResult |
| PromSeries.SeriesFor | misc/prometheus.py:88-110 | the series of one result entry; stated by VectorSeriesHasOnePoint, MatrixSeriesPoints and the entry lemmas |
| PromSeries.SeriesOf | misc/prometheus.py:78-116 | `data_to_df` as a list of series; stated by SeriesPerResult, NonSuccessNoSeries and the response lemmas |
| PromSeries.LabelOf | misc/prometheus.py:89-93 | the name of a labelled entry's series: the label's value, or `'result'` without a label field |
| PromSeries.VectorEntrySucceeds | misc/prometheus.py:88-97 | a vector entry whose metric holds the label and whose `value` is a pair gives one series of that one point, named by the label |
| PromSeries.MatrixEntrySucceeds | misc/prometheus.py:101-110 | a matrix entry with a dict metric and a non-empty list of pairs as `values` gives one series with one point per pair |
| PromSeries.VectorResponseSucceeds | misc/prometheus.py:86-97 | a successful vector response with N well-formed entries gives N series of one point each, in order |
| PromSeries.MatrixResponseSucceeds | misc/prometheus.py:86-112 | a successful matrix response with N well-formed entries gives N series, each with one point per pair of its entry |
| PromSeries.ZipWidthIsShortest | misc/prometheus.py:80 | `zip(*rows)` succeeds exactly when every row is a list, and yields as many tuples as the shortest row has items |
| PromSeries.Serialize | misc/prometheus.py:79-81 | a series built from rows carries the given name and one point per row |
| PromSeries.PointsOfAt | misc/prometheus.py:80-81 | the k-th point pairs the k-th row's timestamp and value |
| PromSeries.ResultItems | misc/prometheus.py:88 | iterating a list result gives its entries |
| PromSeries.DataToSeries | misc/prometheus.py:78-116 | `data_to_df` gives exactly the series the response specifies, with every KeyError and TypeError of its lookups |
| PromSeries.CollectSeries | misc/prometheus.py:88-110 | the loop over the result entries collects one series per entry and stops at the first failing entry |
| PromSeries.EntrySeries | misc/prometheus.py:89-110 | the loop body, with its `try`/`except KeyError`, builds exactly the specified series of one entry |
| PromSeries.SeriesFromShape | misc/prometheus.py:88-110 | on success there is one series per result entry, in order, each built from its own entry |
| PromSeries.SeriesFromFailsIff | misc/prometheus.py:88-110 | the series list fails exactly when some entry fails |
| PromSeries.SeriesPerResult | misc/prometheus.py:86-112 | a successful vector or matrix response gives one series per result entry, each from its own entry |
| PromSeries.NonSuccessNoSeries | misc/prometheus.py:86 | a status other than `success` gives no series, whatever else the response holds |
| PromSeries.VectorSeriesHasOnePoint | misc/prometheus.py:97 | a vector entry's series has exactly one point, its `value` pair |
| PromSeries.MatrixSeriesPoints | misc/prometheus.py:110 | a matrix entry's series has one point per row of `values`, each row has at least two items and some row exactly two |
| PromSeries.UnlabelledName | misc/prometheus.py:89-90 | without a label field every series is named `'result'` |
| PromSeries.LabelledName | misc/prometheus.py:92-93 | with a label the metric has, the series is named by that label's value |
| PromSeries.VectorMissingLabelFails | misc/prometheus.py:92-96 | in a vector result, a metric without the label re-raises KeyError and the whole call fails |
| PromSeries.MatrixMissingLabelIsResult | misc/prometheus.py:105-109 | in a matrix result, a metric without the label falls back to `'result'` |
| PromSeries.MissingMetricFails | misc/prometheus.py:93 | an entry without `metric` raises KeyError('metric') whenever a label field is given |
| Prometheus.Fetch | misc/prometheus.py:27-47 | `request_data` as a function of the settings, the tokens and the server: its result and its requests in order; stated by FetchNeedsSettings, FirstRequest, CallSequence, RetryCarriesToken and ResultIsLastBody |
| Prometheus.AfterRedirect | misc/prometheus.py:35-47 | the Keycloak branch: grant, token, retried GET; stated by CallSequence and RetryCarriesToken |
| Prometheus.TokenEndpoint | misc/prometheus.py:36 | the token endpoint next to the login page; stated by TokenEndpointRules |
| Prometheus.GrantRequest | misc/prometheus.py:37-44 | the password grant and its KeyErrors; stated by GrantRules |
| Prometheus.Defaults | misc/prometheus.py:122-124 | the settings after `init`'s loop; stated by DefaultsRules and DefaultsIdempotent |
| Prometheus.Render | misc/prometheus.py:71-75 | the `output_format` switch; stated by FormatsOfResult and UnknownFormatFails |
| Prometheus.QueryOf | misc/prometheus.py:50-75 | `q` as a function of the state and the server; stated by QueryRequestsTemplate, FormatsOfResult and UnknownFormatFails |
| Prometheus.MetricsOf | misc/prometheus.py:128-131 | `get_metrics` as a function of the state and the server; stated by MetricsRequestsNames |
| Prometheus.JsonOf | misc/prometheus.py:47 | decoding succeeds exactly when the body is JSON, and otherwise raises the JSON decode error |
| Prometheus.BaseUrl | misc/prometheus.py:63 | `auth_data[cloud]['url']` is the configured URL, or KeyError for the missing cloud or the missing `url` |
| Prometheus.StrList | misc/prometheus.py:41 | the client ids go into the form as the same strings, in order |
| Prometheus.Client.constructor | misc/prometheus.py:11-12 | the state starts with no settings and the caller's stored tokens |
| Prometheus.Client.Init | misc/prometheus.py:119-125 | after `init`, the settings are the loaded ones with `verify_cert` defaulted, and the tokens are unchanged |
| Prometheus.Client.RequestData | misc/prometheus.py:27-47 | `request_data` returns and sends exactly what `Fetch` specifies for the current state and server |
| Prometheus.Client.Reauthenticate | misc/prometheus.py:35-47 | the Keycloak branch posts the grant and retries the GET exactly as `AfterRedirect` specifies |
| Prometheus.Client.Query | misc/prometheus.py:50-75 | `q` returns and sends exactly what `QueryOf` specifies |
| Prometheus.Client.GetMetrics | misc/prometheus.py:128-131 | `get_metrics` returns and sends exactly what `MetricsOf` specifies |
| Prometheus.DefaultsAgree | misc/prometheus.py:122-124 | a map that defaults every loaded cloud is the defaulted settings |
| Prometheus.FetchNeedsSettings | misc/prometheus.py:27-34 | an unknown cloud raises KeyError(cloud) and a cloud without `verify_cert` raises KeyError('verify_cert'), both before any request; otherwise a request is sent |
| Prometheus.FirstRequest | misc/prometheus.py:28-34 | the first request is a GET of the URL with the cloud's `verify_cert`, carrying `Bearer <token>` exactly when a token is stored for the cloud |
| Prometheus.CallSequence | misc/prometheus.py:34-46 | at most three requests: a POST of the grant only after a Keycloak redirect that yields a complete grant, and a retry GET only when the token response holds `access_token` |
| Prometheus.RetryCarriesToken | misc/prometheus.py:45-47 | the retry GETs the same URL with the new token as bearer and no `verify`, and the result is its decoded body |
| Prometheus.ResultIsLastBody | misc/prometheus.py:34-47 | a successful result is the decoded body of the last request, which is a GET |
| Prometheus.TokenEndpointRules | misc/prometheus.py:36 | the token endpoint is the text before the first `auth?` followed by `token`; without `auth?` the slice drops the URL's last character |
| Prometheus.GrantRules | misc/prometheus.py:37-44 | the grant goes to the token endpoint with username, password, the client ids and `grant_type=password`, in that order; a missing `client_id` or `keystone_auth` raises KeyError |
| Prometheus.DefaultsRules | misc/prometheus.py:122-124 | `init` keeps every cloud and setting, and fills only a missing `verify_cert`, with `True` |
| Prometheus.DefaultsIdempotent | misc/prometheus.py:122-124 | applying the defaults twice changes nothing |
| Prometheus.InitEnablesRequests | misc/prometheus.py:119-125 | after `init`, a request to any loaded cloud is actually sent |
| Prometheus.QueryRequestsTemplate | misc/prometheus.py:51-69 | `q` requests the instant template without a period and the range template with one, under the cloud's `url` |
| Prometheus.UnknownFormatFails | misc/prometheus.py:70-75 | an unknown output format fails, but only after `request_data` has sent its requests |
| Prometheus.FormatsOfResult | misc/prometheus.py:70-74 | `'json'` returns what `request_data` returned, `'df'` its series, and a request error propagates |
| Prometheus.MetricsRequestsNames | misc/prometheus.py:129-130 | `get_metrics` requests the metric-names URL of the cloud |
| OpenstackHelpers.NonEmpty | misc/openstack_helpers.py:11 | the filter keeps no empty line and never adds lines |
| OpenstackHelpers.NonEmptyAppend | misc/openstack_helpers.py:11 | filtering out empty lines distributes over concatenation |
| OpenstackHelpers.LinesCons | misc/openstack_helpers.py:11 | a non-empty first line comes first, followed by the lines after its newline |
| OpenstackHelpers.LinesSkipsEmpty | misc/openstack_helpers.py:11 | an empty line is skipped |
| OpenstackHelpers.SplitSecondIsSecondField | misc/openstack_helpers.py:11 | the second piece of a split at the pipe character is the text between the first and the second pipe |
| OpenstackHelpers.PipeCells | misc/openstack_helpers.py:11 | each element is the stripped second cell of its line |
| OpenstackHelpers.StripAll | misc/openstack_helpers.py:13 | each element is its stripped line |
| OpenstackHelpers.ParseCmdOutput | misc/openstack_helpers.py:9-13 | one element per non-empty line; the stripped second cells when every line holds a pipe character, otherwise the stripped lines |
| OpenstackHelpers.Flattened | misc/openstack_helpers.py:42-53 | the flattened object; stated by FlattenedKeys, FlattenedLastWins, FlattenedNestedKey and FlattenedHasNoDict |
| OpenstackHelpers.StrsOf | misc/openstack_helpers.py:50 | `[str(x) for x in xs]`, item by item |
| OpenstackHelpers.JoinStrIsJoin | misc/openstack_helpers.py:50 | a list value becomes `', '.join` of the `str` of its items |
| OpenstackHelpers.FlattenObject | misc/openstack_helpers.py:42-53 | the loop builds exactly the flattened object `Flattened` specifies |
| OpenstackHelpers.AddEntry | misc/openstack_helpers.py:45-52 | one entry adds exactly its contribution, overwriting earlier keys |
| OpenstackHelpers.CopyPrefixed | misc/openstack_helpers.py:47-48 | copying a flattened sub-object adds every key `k_s` with the value of `s` |
| OpenstackHelpers.ContributionRules | misc/openstack_helpers.py:45-52 | a list becomes the `', '`-join of its items' `str`, a scalar is kept, and a nested dict contributes its flattened keys under `k_` (nothing when empty) |
| OpenstackHelpers.FlattenedHasNoDict | misc/openstack_helpers.py:42-53 | no value of a flattened object is a dict |
| OpenstackHelpers.FlattenedKeys | misc/openstack_helpers.py:42-53 | a key is in the result exactly when some entry contributes it |
| OpenstackHelpers.FlattenedLastWins | misc/openstack_helpers.py:44-52 | a key holds the value written by the last entry that contributes it |
| OpenstackHelpers.FlattenedNestedKey | misc/openstack_helpers.py:45-48 | a nested key `s` under `k` appears as `k_s` with the nested value, unless a later entry writes that key |
| OpenstackHelpers.SetCellsAt | misc/openstack_helpers.py:63 | writing one element's cells touches only its row and its keys, and adds a row only when there is a cell |
| OpenstackHelpers.Munched | misc/openstack_helpers.py:56-67 | the table `munch_to_dataframe` builds, or its error; stated by MunchedRows, MunchedCells, MunchedCell and MunchedNeedsIds |
| OpenstackHelpers.MunchToDataframe | misc/openstack_helpers.py:56-67 | the loop builds exactly the table `Munched` specifies, or fails as it does |
| OpenstackHelpers.WriteCells | misc/openstack_helpers.py:61-66 | the inner loop writes every cell of the element into its row, and fails exactly when there is a cell and the id is a list or dict |
| OpenstackHelpers.MunchedNeedsIds | misc/openstack_helpers.py:59 | an element without the id field fails the whole call |
| OpenstackHelpers.MunchedRows | misc/openstack_helpers.py:58-66 | there is a row for an id exactly when some element with that id writes a cell |
| OpenstackHelpers.MunchedCells | misc/openstack_helpers.py:58-66 | cell (id, key) exists exactly when some element with that id has `key` among its flattened keys |
| OpenstackHelpers.MunchedCell | misc/openstack_helpers.py:58-66 | cell (id, key) holds the value from the last element with that id and key |
| OpenstackHelpers.FlatOfHasIdColumn | misc/openstack_helpers.py:59-60 | an element with a scalar id always has the id column, so it always gets a row |
| OpenstackHelpers.SaltApiLines | misc/openstack_helpers.py:83 | the kept lines are never more than the lines read |
| OpenstackHelpers.SaltApiLinesAppend | misc/openstack_helpers.py:83 | the line filter distributes over concatenation |
| OpenstackHelpers.SaltApiLinesSpec | misc/openstack_helpers.py:83 | a kept line is exactly the stripped form of some line that starts with `SALTAPI` |
| OpenstackHelpers.StripKeepsEquals | misc/openstack_helpers.py:83 | stripping never removes or adds an `=` |
| OpenstackHelpers.Pepperrc | misc/openstack_helpers.py:79-87 | the settings `read_pepperrc` returns, or its ValueError; stated by PepperFailsIff, PepperKeys and PepperLastWins |
| OpenstackHelpers.ReadPepperrc | misc/openstack_helpers.py:79-87 | the loop builds exactly the settings `Pepperrc` specifies, or raises its ValueError |
| OpenstackHelpers.PepperFailsIffUpTo | misc/openstack_helpers.py:84-85 | the loop raises ValueError exactly when some kept line has no `=` |
| OpenstackHelpers.PepperFailsIff | misc/openstack_helpers.py:79-87 | `read_pepperrc` fails exactly when some line that starts with `SALTAPI` has no `=` |
| OpenstackHelpers.PepperKeys | misc/openstack_helpers.py:84-86 | a key is set exactly when some kept line names it before its first `=` |
| OpenstackHelpers.PepperLastWins | misc/openstack_helpers.py:84-86 | a key's value is the text after the first `=` of the last line that sets it |

## Left out

- HTTP, JSON decoding, YAML and file reading are not modelled as code. The
  server is the `get`/`post` parameters; `init` receives the settings the
  YAML file holds; `read_pepperrc` receives the lines `readlines()` returns.
- The ping inside `init` (`q('1', c)` for every cloud) is not modelled. It
  sends requests, and an exception from it stops `init` before the
  remaining clouds get their default.
- `api_debug`, and every `print`, are not modelled.
- Prometheus.Client.Init: the settings are a map from cloud to a record of the three
  keys the module reads. A setting that is not a dict is not modelled, nor
  a `url` that is not a string, nor any other key.
- pandas is not modelled. `data_to_df` gives the list of named series whose
  frame it would build. The following are left out:
  - `to_numeric`, `to_datetime` and the transpose;
  - duplicate column names;
  - the `raw_data` option, which `q` never sets.

  `munch_to_dataframe` gives a sparse map from (id, column) to value, with
  a missing cell standing for NaN. Column dtypes, and the `astype(object)`
  retry after a ValueError, are not modelled, because a cell may hold any
  value here and the write after the retry succeeds the same way. A list
  or dict as a row label is modelled as a TypeError; the exact exception
  pandas raises is not.
- Floating point is not modelled. Times and durations are whole seconds,
  and a time value is written as its decimal digits followed by `.0`. The
  exponent form Python uses for very large floats is not modelled. Parsing
  durations with `pd.Timedelta` and `pd.Timestamp`, and `dates_range`
  itself, is not modelled: the period is either a span in seconds or the
  (start, step, period) triple `dates_range` returns.
- PromUrls.RangeWindow: an explicit start of `0` is treated as given,
  whereas Python's `if start:` would treat it as missing. A `dates_range`
  dict with missing keys is not modelled either.
- PromUrls.ClientIds: the values are kept percent-encoded. `parse_qs`
  would decode `%XX` and `+`, so the client ids posted in the grant are the
  encoded text of the redirect. `urlsplit`'s removal of control characters
  is not modelled either.
- Values.PyRepr: the escaping of quotes and special characters in `repr`
  of a string is not modelled. Dict keys are strings only.
- OpenstackHelpers.FlattenObject: the entries of a dict are taken to have
  distinct keys, as a parsed dict does. Keys are strings, so `str(k)` is
  the key itself.
- PromSeries.PointsOf: the placeholder point for a row shorter than two
  items is never reached, because `Serialize` demands exactly two tuples
  from `zip`. `zip` over a string or dict row is modelled as a TypeError,
  not as iteration over characters or keys.
- Prometheus.RetryRequest: `verify` is `None` on the retry. The HTTP
  client's own default for that case, including the `REQUESTS_CA_BUNDLE`
  environment variable, is not modelled.
- `dates_range`, `run_shell_command`, `run_yaml_command`,
  `run_yaml_with_param`, `run_df_command`, `openrc_to_env` and the
  `QUERIES` table are not part of this model. They call processes or set
  the environment, or are constant data.
