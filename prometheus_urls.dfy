/** The URLs the metrics-query client sends to the Prometheus HTTP API: the
    instant-query, range-query and metric-names templates, the time window of
    a range query, and the query-string reader (`urlparse(...).query` and
    `parse_qsl`) that both states what a server reads back from those URLs
    and extracts the `client_id` of a Keycloak redirect. */
module PromUrls {
  import opened Values
  import opened Text
  import opened UrlQuote

  // ---------------------------------------------------------------------
  // Reading a URL's query string

  /** `urlsplit(u).query`: the text after the first `?` of the part before
      the first `#`, or empty. */
  function UrlQuery(u: string): string
  {
    var beforeFragment := match SplitOnce(u, '#') case NoSeparator => u case Halves(b, _) => b;
    match SplitOnce(beforeFragment, '?')
    case NoSeparator => ""
    case Halves(_, q) => q
  }

  datatype QueryField = QueryField(name: string, value: string)

  /** One `&`-separated piece as `parse_qsl` reads it with its defaults:
      without `=` or with an empty value it is dropped; otherwise its name is
      the text before the first `=`. */
  function FieldOf(piece: string): (r: seq<QueryField>)
    ensures |r| <= 1
  {
    match SplitOnce(piece, '=')
    case NoSeparator => []
    case Halves(n, v) => if v == "" then [] else [QueryField(n, v)]
  }

  /** A piece that yields a field is `name=value` with a name free of `=`
      and a non-empty value. */
  lemma FieldOfIsPair(piece: string)
    ensures FieldOf(piece) != [] ==>
      FieldOf(piece)[0].value != "" && '=' !in FieldOf(piece)[0].name &&
      piece == FieldOf(piece)[0].name + "=" + FieldOf(piece)[0].value
  {
    SplitOnceHalves(piece, '=');
  }

  function FieldsOf(pieces: seq<string>): (r: seq<QueryField>)
    ensures |r| <= |pieces|
  {
    if pieces == [] then [] else FieldOf(pieces[0]) + FieldsOf(pieces[1..])
  }

  /** `parse_qsl(query)`, with the names and values left percent-encoded. */
  function ParseQsl(query: string): seq<QueryField>
  {
    FieldsOf(Split(query, '&'))
  }

  /** `parse_qs(query)[name]`: every value given for `name`, in order. */
  function ValuesOf(fields: seq<QueryField>, name: string): (vs: seq<string>)
    ensures |vs| <= |fields|
  {
    if fields == [] then []
    else (if fields[0].name == name then [fields[0].value] else []) + ValuesOf(fields[1..], name)
  }

  /** `parse_qs` keeps exactly the values of the fields with that name. */
  lemma {:induction false} ValuesOfNamed(fields: seq<QueryField>, name: string, v: string)
    ensures v in ValuesOf(fields, name) <==> QueryField(name, v) in fields
  {
    if fields != [] {
      ValuesOfNamed(fields[1..], name, v);
      assert fields == [fields[0]] + fields[1..];
    }
  }

  /** `parse_qs(urlparse(u).query)['client_id']`: KeyError when no field of
      that name survives parsing. */
  function ClientIds(u: string): (r: Result<seq<string>>)
    ensures r.Ok? ==> r.value != []
    ensures r.Err? ==> r.error == KeyError("client_id")
  {
    var vs := ValuesOf(ParseQsl(UrlQuery(u)), "client_id");
    if vs == [] then Err(KeyError("client_id")) else Ok(vs)
  }

  // ---------------------------------------------------------------------
  // Time values in the range template

  /** `str(float(n))` for a whole number of seconds of ordinary size. */
  function FloatSeconds(n: int): (s: string)
    ensures s != ""
  {
    IntToString(n) + ".0"
  }

  /** A time value is written with a sign, digits and a point only, so no
      URL delimiter can occur in it. */
  lemma FloatSecondsChars(n: int)
    ensures forall i :: 0 <= i < |FloatSeconds(n)| ==>
      FloatSeconds(n)[i] == '-' || FloatSeconds(n)[i] == '.' || '0' <= FloatSeconds(n)[i] <= '9'
  {
  }

  /** The `period` argument of `q` when it is truthy: a duration, or the
      dict built by `dates_range`, whose start, step and period replace the
      arguments. All durations and instants are in whole seconds. */
  datatype PeriodArg =
    | Span(seconds: int)
    | DatesRange(start: int, step: int, period: int)

  datatype Window = Window(start: int, end: int, step: int)

  /** The window of a range query: without an explicit start it ends now. */
  function RangeWindow(period: PeriodArg, start: Option<int>, step: int, now: int): (w: Window)
    ensures period.DatesRange? ==>
      w == Window(period.start, period.start + period.period, period.step)
    ensures period.Span? && start.Some? ==>
      w == Window(start.value, start.value + period.seconds, step)
    ensures period.Span? && start.None? ==>
      w == Window(now - period.seconds, now, step)
  {
    var (s, st, p) := match period
      case Span(secs) => (start, step, secs)
      case DatesRange(s0, st0, p0) => (Some(s0), st0, p0);
    var dateStart := if s.Some? then s.value else now - p;
    Window(dateStart, dateStart + p, st)
  }

  // ---------------------------------------------------------------------
  // The templates

  /** One `name=value` parameter of a template. */
  function Param(name: string, value: string): string
  {
    name + "=" + value
  }

  /** `query_tmpl` */
  function InstantUrl(base: string, query: string): string
  {
    base + "/api/v1/query" + "?" + Param("query", Quote(query))
  }

  /** `query_range_tmpl` */
  function RangeUrl(base: string, query: string, w: Window): string
  {
    base + "/api/v1/query_range" + "?" + RangeQueryString(query, w)
  }

  /** The part of `query_range_tmpl` after the `?`. */
  function RangeQueryString(query: string, w: Window): string
  {
    Param("query", Quote(query)) + "&" + Param("start", FloatSeconds(w.start)) + "&" +
    Param("end", FloatSeconds(w.end)) + "&" + Param("step", FloatSeconds(w.step))
  }

  /** `metrics_tmpl` */
  function MetricsUrl(base: string): string
  {
    base + "/api/v1/label/__name__/values"
  }

  // ---------------------------------------------------------------------
  // What a server reads back

  lemma QuoteEmptyIff(q: string)
    ensures Quote(q) == "" <==> q == ""
  {
    if q != "" {
      assert Utf8(q) == Utf8Char(q[0]) + Utf8(q[1..]);
      assert QuoteBytes(Utf8(q)) == QuoteByte(Utf8(q)[0]) + QuoteBytes(Utf8(q)[1..]);
    }
  }

  lemma QuoteHasNo(q: string, c: char)
    requires c in {' ', '&', '=', '?', '#', '+'}
    ensures c !in Quote(q)
  {
    QuoteHasNoDelimiters(q);
  }

  lemma FieldsOfAppend(a: seq<string>, b: seq<string>)
    ensures FieldsOf(a + b) == FieldsOf(a) + FieldsOf(b)
  {
    if a == [] {
      assert a + b == b;
    } else {
      assert (a + b)[1..] == a[1..] + b;
      FieldsOfAppend(a[1..], b);
    }
  }

  /** A `name=value` piece with a plain name and a non-empty value. */
  lemma FieldOfPair(name: string, value: string)
    requires '=' !in name && value != ""
    ensures FieldOf(Param(name, value)) == [QueryField(name, value)]
  {
    SplitOnceAt(name, '=', value);
    assert name + "=" + value == name + ['='] + value;
  }

  /** The parameter `query=` + the encoded query: one field, dropped when the
      query is empty. */
  lemma QueryFieldOf(q: string)
    ensures FieldOf(Param("query", Quote(q))) == if q == "" then [] else [QueryField("query", Quote(q))]
  {
    QuoteEmptyIff(q);
    assert '=' !in "query";
    SplitOnceAt("query", '=', Quote(q));
  }

  /** The server reads back the encoded query as the only field of an instant
      query, and decoding it gives back the caller's query; the part before
      `?` is the API path under the base URL. */
  lemma InstantUrlRoundTrip(base: string, query: string)
    requires '?' !in base && '#' !in base
    ensures SplitOnce(InstantUrl(base, query), '?') == Halves(base + "/api/v1/query", Param("query", Quote(query)))
    ensures ParseQsl(UrlQuery(InstantUrl(base, query))) ==
      if query == "" then [] else [QueryField("query", Quote(query))]
    ensures Unquote(Quote(query)) == Some(query)
  {
    var path := base + "/api/v1/query";
    var rest := Param("query", Quote(query));
    QuoteHasNo(query, '#');
    QuoteHasNo(query, '&');
    assert '#' !in rest && '&' !in rest;
    assert InstantUrl(base, query) == path + ['?'] + rest;
    ApiPathsArePlain();
    QueryAfterMark(path, rest);
    FindCharIsFirst(rest, '&');
    assert Split(rest, '&') == [rest];
    QueryFieldOf(query);
    QuoteRoundTrip(query);
  }

  lemma NoFragmentInRangeQuery(query: string, w: Window)
    ensures '#' !in RangeQueryString(query, w)
  {
    RangeParamsHaveNo(query, w, '#');
  }

  /** Neither `#` nor `&` occurs in a parameter of the range template. */
  lemma RangeParamsHaveNo(query: string, w: Window, c: char)
    requires c == '#' || c == '&'
    ensures c !in Param("query", Quote(query)) && c !in Param("start", FloatSeconds(w.start))
    ensures c !in Param("end", FloatSeconds(w.end)) && c !in Param("step", FloatSeconds(w.step))
  {
    QuoteHasNo(query, c);
    FloatSecondsHasNo(w.start, c);
    FloatSecondsHasNo(w.end, c);
    FloatSecondsHasNo(w.step, c);
    ParamNamesArePlain();
  }

  lemma ParamNamesArePlain()
    ensures '#' !in "query" && '#' !in "start" && '#' !in "end" && '#' !in "step"
    ensures '&' !in "query" && '&' !in "start" && '&' !in "end" && '&' !in "step"
  {
  }

  lemma FloatSecondsHasNo(n: int, c: char)
    requires c == '#' || c == '&'
    ensures c !in FloatSeconds(n)
  {
    FloatSecondsChars(n);
  }

  lemma RangeUrlSplit(base: string, query: string, w: Window)
    requires '?' !in base && '#' !in base
    ensures SplitOnce(RangeUrl(base, query, w), '?') == Halves(base + "/api/v1/query_range", RangeQueryString(query, w))
    ensures UrlQuery(RangeUrl(base, query, w)) == RangeQueryString(query, w)
  {
    var path := base + "/api/v1/query_range";
    var rest := RangeQueryString(query, w);
    NoFragmentInRangeQuery(query, w);
    assert RangeUrl(base, query, w) == path + ['?'] + rest;
    ApiPathsArePlain();
    QueryAfterMark(path, rest);
  }

  /** The API paths of the templates hold no `?` and no `#`. */
  lemma ApiPathsArePlain()
    ensures '?' !in "/api/v1/query" && '#' !in "/api/v1/query"
    ensures '?' !in "/api/v1/query_range" && '#' !in "/api/v1/query_range"
    ensures '?' !in "/api/v1/label/__name__/values" && '#' !in "/api/v1/label/__name__/values"
  {
  }

  /** The query of a URL `path?rest` without a fragment is `rest`. */
  lemma QueryAfterMark(path: string, rest: string)
    requires '?' !in path && '#' !in path && '#' !in rest
    ensures SplitOnce(path + ['?'] + rest, '?') == Halves(path, rest)
    ensures UrlQuery(path + ['?'] + rest) == rest
  {
    SplitOnceAt(path, '?', rest);
    assert '#' !in path + ['?'] + rest;
    FindCharIsFirst(path + ['?'] + rest, '#');
  }

  /** Four `&`-free pieces joined with `&` split back into those pieces. */
  lemma SplitFour(a: string, b: string, c: string, d: string)
    requires '&' !in a && '&' !in b && '&' !in c && '&' !in d
    ensures Split(a + "&" + b + "&" + c + "&" + d, '&') == [a, b, c, d]
  {
    JoinFour(a, b, c, d);
    var p := [a, b, c, d];
    assert forall k :: 0 <= k < |p| ==> '&' !in p[k];
    SplitJoin(p, '&');
  }

  lemma JoinFour(a: string, b: string, c: string, d: string)
    ensures a + "&" + b + "&" + c + "&" + d == Join([a, b, c, d], "&")
  {
    var p := [a, b, c, d];
    assert p[1..] == [b, c, d] && p[1..][1..] == [c, d] && p[1..][1..][1..] == [d];
    assert Join([c, d], "&") == c + "&" + d;
    assert Join([b, c, d], "&") == b + "&" + (c + "&" + d);
    assert Join(p, "&") == a + "&" + (b + "&" + (c + "&" + d));
  }

  lemma FieldsOfFour(a: string, b: string, c: string, d: string)
    ensures FieldsOf([a, b, c, d]) == FieldOf(a) + FieldOf(b) + FieldOf(c) + FieldOf(d)
  {
    var p := [a, b, c, d];
    assert p[1..] == [b, c, d] && p[1..][1..] == [c, d] && p[1..][1..][1..] == [d];
    assert FieldsOf([d]) == FieldOf(d) by {
      assert [d][1..] == [];
    }
    assert FieldsOf([c, d]) == FieldOf(c) + FieldOf(d);
    assert FieldsOf([b, c, d]) == FieldOf(b) + (FieldOf(c) + FieldOf(d));
    assert FieldsOf(p) == FieldOf(a) + (FieldOf(b) + (FieldOf(c) + FieldOf(d)));
  }

  /** The server reads back a range query's fields in the order query, start,
      end, step, each time value in its own field; the part before `?` is the
      API path under the base URL. */
  lemma RangeUrlRoundTrip(base: string, query: string, w: Window)
    requires '?' !in base && '#' !in base
    ensures SplitOnce(RangeUrl(base, query, w), '?') ==
      Halves(base + "/api/v1/query_range", UrlQuery(RangeUrl(base, query, w)))
    ensures ParseQsl(UrlQuery(RangeUrl(base, query, w))) ==
      (if query == "" then [] else [QueryField("query", Quote(query))]) +
      [QueryField("start", FloatSeconds(w.start)), QueryField("end", FloatSeconds(w.end)),
       QueryField("step", FloatSeconds(w.step))]
  {
    RangeUrlSplit(base, query, w);
    RangeFields(query, w);
  }

  lemma RangeFields(query: string, w: Window)
    ensures ParseQsl(RangeQueryString(query, w)) ==
      (if query == "" then [] else [QueryField("query", Quote(query))]) +
      [QueryField("start", FloatSeconds(w.start)), QueryField("end", FloatSeconds(w.end)),
       QueryField("step", FloatSeconds(w.step))]
  {
    var qf, sf, ef, tf := Param("query", Quote(query)), Param("start", FloatSeconds(w.start)),
                          Param("end", FloatSeconds(w.end)), Param("step", FloatSeconds(w.step));
    RangePieces(query, w);
    FieldsOfFour(qf, sf, ef, tf);
    QueryFieldOf(query);
    TimeFields(FieldOf(qf), FloatSeconds(w.start), FloatSeconds(w.end), FloatSeconds(w.step));
  }

  lemma RangePieces(query: string, w: Window)
    ensures ParseQsl(RangeQueryString(query, w)) ==
      FieldsOf([Param("query", Quote(query)), Param("start", FloatSeconds(w.start)),
                Param("end", FloatSeconds(w.end)), Param("step", FloatSeconds(w.step))])
  {
    var qf, sf, ef, tf := Param("query", Quote(query)), Param("start", FloatSeconds(w.start)),
                          Param("end", FloatSeconds(w.end)), Param("step", FloatSeconds(w.step));
    RangeParamsHaveNo(query, w, '&');
    SplitFour(qf, sf, ef, tf);
  }

  lemma TimeFields(fq: seq<QueryField>, a: string, b: string, c: string)
    requires a != "" && b != "" && c != ""
    ensures fq + FieldOf(Param("start", a)) + FieldOf(Param("end", b)) + FieldOf(Param("step", c)) ==
      fq + [QueryField("start", a), QueryField("end", b), QueryField("step", c)]
  {
    FieldOfPair("start", a);
    FieldOfPair("end", b);
    FieldOfPair("step", c);
  }

  /** The metric-names URL carries no query string at all. */
  lemma MetricsUrlHasNoQuery(base: string)
    requires '?' !in base && '#' !in base
    ensures UrlQuery(MetricsUrl(base)) == ""
    ensures ParseQsl(UrlQuery(MetricsUrl(base))) == []
  {
    var u := MetricsUrl(base);
    ApiPathsArePlain();
    assert '#' !in u && '?' !in u;
    FindCharIsFirst(u, '#');
    FindCharIsFirst(u, '?');
    assert Split("", '&') == [""];
  }
}
