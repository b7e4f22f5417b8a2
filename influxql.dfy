/**
 * InfluxQL query execution of the InfluxDB datasource: how one HTTP request
 * is built per query (`createRequest`) and how `Query` turns a batch of
 * queries into per-RefID responses, aborting on preparation errors and
 * recording execution errors.
 */
module InfluxQL {
  import opened Errors

  const DefaultRetentionPolicy: string := "default"
  const ErrInvalidHttpMode: Error := Error("'httpMode' should be either 'GET' or 'POST'")
  const FormURLEncoded: string := "application/x-www-form-urlencoded"

  /** `url.Values`: each key maps to its list of values; encoding is not modelled. */
  type Values = map<string, seq<string>>

  /** A parsed URL: the scheme together with any user information, kept
      whole; the host (with its port, empty for a URL without one); the path;
      and the decoded query parameters. */
  datatype URL = URL(scheme: string, host: string, path: string, query: Values)

  datatype HttpMethod = Get | Post

  /** The parts of an `http.Request` that `createRequest` decides: the method,
      the URL, the form body and the Content-Type header. */
  datatype Request = Request(verb: HttpMethod, url: URL, body: Option<Values>, contentType: Option<string>)

  /** The datasource settings `createRequest` reads. */
  datatype DatasourceInfo = DatasourceInfo(url: string, httpMode: string, dbName: string)

  /** `p` without the slashes it ends in. */
  function TrimTrailingSlashes(p: string): (r: string)
    ensures |r| <= |p| && r == p[..|r|]
    ensures r == [] || r[|r| - 1] != '/'
    ensures forall i :: |r| <= i < |p| ==> p[i] == '/'
    decreases |p|
  {
    if p != [] && p[|p| - 1] == '/' then TrimTrailingSlashes(p[..|p| - 1]) else p
  }

  /** `path.Join(dir, "query")`, for a directory with no `.`, `..` or
      doubled slashes in it: the element is appended after one slash. */
  function JoinQuery(dir: string): (r: string)
    ensures |r| >= 5 && r[|r| - 5..] == "query"
    ensures dir == "" ==> r == "query"
    ensures dir != "" ==> r[..|r| - 5] == TrimTrailingSlashes(dir) + "/"
  {
    if dir == "" then "query" else TrimTrailingSlashes(dir) + "/query"
  }

  /** The path of the request built from a URL with host `host` and path
      `p`: `URL.String` puts a slash before a relative path when there is a
      host, and the request re-parses that string. */
  function RequestPath(host: string, p: string): (r: string)
    ensures host == "" || (p != [] && p[0] == '/') ==> r == p
    ensures host != "" && p != [] && p[0] != '/' ==> r == "/" + p
    ensures host != "" && p != [] ==> r[0] == '/'
  {
    if host != "" && p != [] && p[0] != '/' then "/" + p else p
  }

  /** Whether a retention policy is sent (in `createRequest`): the empty policy
      and the hard-coded default are left to the server. */
  predicate SendsRetentionPolicy(retentionPolicy: string)
  {
    retentionPolicy != "" && retentionPolicy != DefaultRetentionPolicy
  }

  /** The query parameters `createRequest` writes over those of the
      datasource URL: the database, millisecond epochs,
      the retention policy when one is sent, and the query text for GET. */
  function QueryParams(base: Values, verb: HttpMethod, dbName: string,
                       queryStr: string, retentionPolicy: string): (params: Values)
    ensures "db" in params && params["db"] == [dbName]
    ensures "epoch" in params && params["epoch"] == ["ms"]
  {
    var params := base["db" := [dbName]]["epoch" := ["ms"]];
    var params := if SendsRetentionPolicy(retentionPolicy) then params["rp" := [retentionPolicy]] else params;
    if verb == Get then params["q" := [queryStr]] else params
  }

  /** Every parameter of the datasource URL other than the four written ones
      is carried over unchanged, and no parameter beyond those four is added. */
  lemma QueryParamsKeepOthers(base: Values, verb: HttpMethod, dbName: string, queryStr: string, retentionPolicy: string)
    ensures var params := QueryParams(base, verb, dbName, queryStr, retentionPolicy);
            && (forall k :: k in base && k != "db" && k != "epoch" && k != "rp" && k != "q" ==>
                   k in params && params[k] == base[k])
            && (forall k :: k in params ==> k in base || k == "db" || k == "epoch" || k == "rp" || k == "q")
  {
  }

  /** The `rp` parameter is the given retention policy when one is sent;
      otherwise it is whatever `rp` the datasource URL had (none, for a URL
      without one). */
  lemma QueryParamsRetentionPolicy(base: Values, verb: HttpMethod, dbName: string, queryStr: string, retentionPolicy: string)
    ensures var params := QueryParams(base, verb, dbName, queryStr, retentionPolicy);
            && (SendsRetentionPolicy(retentionPolicy) ==> "rp" in params && params["rp"] == [retentionPolicy])
            && (!SendsRetentionPolicy(retentionPolicy) ==> ("rp" in params <==> "rp" in base))
            && (!SendsRetentionPolicy(retentionPolicy) && "rp" in base ==> params["rp"] == base["rp"])
  {
  }

  /** The query text is the `q` parameter for GET; for POST the URL keeps
      whatever `q` the datasource URL had. */
  lemma QueryParamsQueryText(base: Values, verb: HttpMethod, dbName: string, queryStr: string, retentionPolicy: string)
    ensures var params := QueryParams(base, verb, dbName, queryStr, retentionPolicy);
            && (verb == Get ==> "q" in params && params["q"] == [queryStr])
            && (verb == Post ==> ("q" in params <==> "q" in base))
            && (verb == Post && "q" in base ==> params["q"] == base["q"])
  {
  }

  /** `createRequest`: parse the datasource URL (its error is returned), pick
      the method from `httpMode`, then set the query parameters. */
  function CreateRequest(parseURL: string -> Result<URL>, ds: DatasourceInfo,
                         queryStr: string, retentionPolicy: string): (r: Result<Request>)
    ensures parseURL(ds.url).Failure? ==> r == Failure(parseURL(ds.url).error)
    ensures parseURL(ds.url).Success? ==>
              (r.Failure? <==> ds.httpMode != "GET" && ds.httpMode != "POST")
    ensures parseURL(ds.url).Success? && r.Failure? ==> r.error == ErrInvalidHttpMode
  {
    match parseURL(ds.url)
    case Failure(e) => Failure(e)
    case Success(parsed) =>
      var u := parsed.(path := RequestPath(parsed.host, JoinQuery(parsed.path)));
      if ds.httpMode != "GET" && ds.httpMode != "POST" then Failure(ErrInvalidHttpMode)
      else
        var verb := if ds.httpMode == "GET" then Get else Post;
        var body := if verb == Post then Some(map["q" := [queryStr]]) else None;
        var params := QueryParams(u.query, verb, ds.dbName, queryStr, retentionPolicy);
        var contentType := if verb == Post then Some(FormURLEncoded) else None;
        Success(Request(verb, u.(query := params), body, contentType))
  }

  /** The request goes to the datasource URL's scheme and host, at its path
      joined with `query` (made absolute when there is a host), with the
      parameters of `QueryParams` over the URL's own. */
  lemma CreateRequestTarget(parseURL: string -> Result<URL>, ds: DatasourceInfo, queryStr: string, retentionPolicy: string)
    requires CreateRequest(parseURL, ds, queryStr, retentionPolicy).Success?
    ensures var u := parseURL(ds.url).value;
            var req := CreateRequest(parseURL, ds, queryStr, retentionPolicy).value;
            && req.url.scheme == u.scheme && req.url.host == u.host
            && req.url.path == RequestPath(u.host, JoinQuery(u.path))
            && (u.host != "" ==> req.url.path[0] == '/')
            && req.url.query == QueryParams(u.query, req.verb, ds.dbName, queryStr, retentionPolicy)
  {
  }

  /** A datasource URL with a host and no path, such as
      `http://localhost:8086`, is queried at `/query`. */
  lemma CreateRequestHostOnly(parseURL: string -> Result<URL>, ds: DatasourceInfo, queryStr: string, retentionPolicy: string)
    requires parseURL(ds.url).Success? && parseURL(ds.url).value.host != "" && parseURL(ds.url).value.path == ""
    requires ds.httpMode == "GET" || ds.httpMode == "POST"
    ensures CreateRequest(parseURL, ds, queryStr, retentionPolicy).Success?
    ensures CreateRequest(parseURL, ds, queryStr, retentionPolicy).value.url.path == "/query"
  {
    var u := parseURL(ds.url).value;
    assert JoinQuery(u.path) == "query";
    assert RequestPath(u.host, "query") == "/query";
    CreateRequestTarget(parseURL, ds, queryStr, retentionPolicy);
  }

  /** With GET the query text is a URL parameter and there is no body and no
      Content-Type header. */
  lemma CreateRequestGet(parseURL: string -> Result<URL>, ds: DatasourceInfo, queryStr: string, retentionPolicy: string)
    requires parseURL(ds.url).Success? && ds.httpMode == "GET"
    ensures CreateRequest(parseURL, ds, queryStr, retentionPolicy).Success?
    ensures var req := CreateRequest(parseURL, ds, queryStr, retentionPolicy).value;
            && req.verb == Get
            && "q" in req.url.query && req.url.query["q"] == [queryStr]
            && req.body == None && req.contentType == None
  {
  }

  /** With POST the query text travels only in the form-encoded body, which
      the Content-Type header announces; no `q` is added to the URL. */
  lemma CreateRequestPost(parseURL: string -> Result<URL>, ds: DatasourceInfo, queryStr: string, retentionPolicy: string)
    requires parseURL(ds.url).Success? && ds.httpMode == "POST"
    ensures CreateRequest(parseURL, ds, queryStr, retentionPolicy).Success?
    ensures var u := parseURL(ds.url).value;
            var req := CreateRequest(parseURL, ds, queryStr, retentionPolicy).value;
            && req.verb == Post
            && req.body == Some(map["q" := [queryStr]])
            && req.contentType == Some(FormURLEncoded)
            && ("q" in req.url.query <==> "q" in u.query)
            && ("q" in u.query ==> req.url.query["q"] == u.query["q"])
  {
    QueryParamsQueryText(parseURL(ds.url).value.query, Post, ds.dbName, queryStr, retentionPolicy);
  }

  // ---------------------------------------------------------------------
  // Query

  /** One query of a `backend.QueryDataRequest`: its RefID and its JSON model. */
  datatype DataQuery = DataQuery(refID: string, json: string)

  /** The fields of `models.Query` that `Query` reads or writes; the others
      are abstracted into what `queryParse` and `build` do. */
  datatype InfluxQuery = InfluxQuery(policy: string, rawQuery: string, refID: string)

  datatype Frame = Frame(name: string)

  /** `backend.DataResponse`: the frames of a query's answer, or its error. */
  datatype DataResponse = DataResponse(frames: seq<Frame>, error: Option<Error>)

  /** `backend.QueryDataResponse`: one response per RefID. */
  datatype QueryDataResponse = QueryDataResponse(responses: map<string, DataResponse>)

  /** The collaborators of `Query`: URL parsing, `models.QueryParse`,
      `Query.Build` for the current request, and `execute` (the HTTP round
      trip and response parsing). */
  datatype Backend = Backend(parseURL: string -> Result<URL>,
                             queryParse: DataQuery -> Result<InfluxQuery>,
                             build: InfluxQuery -> Result<string>,
                             execute: (InfluxQuery, Request) -> Result<DataResponse>)

  /** A query ready to be sent: the parsed query, stamped with the incoming
      RefID and the built query text, and its HTTP request. */
  datatype Prepared = Prepared(query: InfluxQuery, request: Request)

  /** Parsing, building and request construction for one incoming query, as
      the body of `Query`'s loop does them: the first of them to fail gives
      the error. A prepared query is the parsed one, stamped with the
      incoming RefID and the built text, and keeps its retention policy. */
  function Prepare(b: Backend, ds: DatasourceInfo, dq: DataQuery): (r: Result<Prepared>)
    ensures b.queryParse(dq).Failure? ==> r == Failure(b.queryParse(dq).error)
    ensures b.queryParse(dq).Success? && b.build(b.queryParse(dq).value).Failure? ==>
              r == Failure(b.build(b.queryParse(dq).value).error)
    ensures b.queryParse(dq).Success? && b.build(b.queryParse(dq).value).Success? ==>
              var parsed := b.queryParse(dq).value;
              var q := parsed.(refID := dq.refID, rawQuery := b.build(parsed).value);
              && q.policy == parsed.policy
              && (CreateRequest(b.parseURL, ds, q.rawQuery, q.policy).Failure? ==>
                    r == Failure(CreateRequest(b.parseURL, ds, q.rawQuery, q.policy).error))
              && (CreateRequest(b.parseURL, ds, q.rawQuery, q.policy).Success? ==>
                    r == Success(Prepared(q, CreateRequest(b.parseURL, ds, q.rawQuery, q.policy).value)))
  {
    match b.queryParse(dq)
    case Failure(e) => Failure(e)
    case Success(parsed) =>
      match b.build(parsed)
      case Failure(e) => Failure(e)
      case Success(rawQuery) =>
        var query := parsed.(refID := dq.refID, rawQuery := rawQuery);
        match CreateRequest(b.parseURL, ds, rawQuery, query.policy)
        case Failure(e) => Failure(e)
        case Success(request) => Success(Prepared(query, request))
  }

  /** The response recorded for a prepared query: an execution error becomes
      a response carrying only that error. */
  function Answer(b: Backend, p: Prepared): (r: DataResponse)
    ensures b.execute(p.query, p.request).Failure? ==> r == DataResponse([], Some(b.execute(p.query, p.request).error))
    ensures b.execute(p.query, p.request).Success? ==> r == b.execute(p.query, p.request).value
  {
    match b.execute(p.query, p.request)
    case Failure(e) => DataResponse([], Some(e))
    case Success(resp) => resp
  }

  /** The preparation and answering steps of `Query` for one backend. */
  function Preparer(b: Backend, ds: DatasourceInfo): DataQuery -> Result<Prepared>
  {
    dq => Prepare(b, ds, dq)
  }

  function Answerer(b: Backend): Prepared -> DataResponse
  {
    p => Answer(b, p)
  }

  /** The loop of `Query` for any preparation and answering steps, one query
      after the other: the first preparation error, or the map from RefID to
      the last answer given under that RefID. */
  function Collect(prepare: DataQuery -> Result<Prepared>, answer: Prepared -> DataResponse,
                   qs: seq<DataQuery>): Result<map<string, DataResponse>>
    decreases |qs|
  {
    if qs == [] then Success(map[])
    else
      match Collect(prepare, answer, qs[..|qs| - 1])
      case Failure(e) => Failure(e)
      case Success(m) =>
        var dq := qs[|qs| - 1];
        match prepare(dq)
        case Failure(e) => Failure(e)
        case Success(p) => Success(m[dq.refID := answer(p)])
  }

  /** Once a prefix of the queries fails, the whole batch fails with its error. */
  lemma {:induction false} CollectPrefixFailure(prepare: DataQuery -> Result<Prepared>, answer: Prepared -> DataResponse,
                                                qs: seq<DataQuery>, n: nat)
    requires n <= |qs| && Collect(prepare, answer, qs[..n]).Failure?
    ensures Collect(prepare, answer, qs) == Collect(prepare, answer, qs[..n])
    decreases |qs| - n
  {
    if n < |qs| {
      var init := qs[..|qs| - 1];
      assert init[..n] == qs[..n];
      CollectPrefixFailure(prepare, answer, init, n);
    } else {
      assert qs[..n] == qs;
    }
  }

  /** The batch fails exactly when some query fails to be prepared. */
  lemma {:induction false} CollectFailure(prepare: DataQuery -> Result<Prepared>, answer: Prepared -> DataResponse,
                                          qs: seq<DataQuery>)
    ensures Collect(prepare, answer, qs).Failure? <==> exists i :: 0 <= i < |qs| && prepare(qs[i]).Failure?
    decreases |qs|
  {
    if qs != [] {
      var init := qs[..|qs| - 1];
      CollectFailure(prepare, answer, init);
      if Collect(prepare, answer, qs).Failure? {
        if Collect(prepare, answer, init).Failure? {
          var i :| 0 <= i < |init| && prepare(init[i]).Failure?;
          assert qs[i] == init[i];
        } else {
          assert prepare(qs[|qs| - 1]).Failure?;
        }
      } else {
        forall i | 0 <= i < |qs|
          ensures prepare(qs[i]).Success?
        {
          if i < |init| {
            assert qs[i] == init[i];
          }
        }
      }
    }
  }

  /** A failing batch fails with the error of the first query that cannot be
      prepared, every query before it having been prepared. */
  lemma {:induction false} CollectFirstError(prepare: DataQuery -> Result<Prepared>, answer: Prepared -> DataResponse,
                                             qs: seq<DataQuery>)
    requires Collect(prepare, answer, qs).Failure?
    ensures exists i :: 0 <= i < |qs| && prepare(qs[i]) == Failure(Collect(prepare, answer, qs).error) &&
                        forall j :: 0 <= j < i ==> prepare(qs[j]).Success?
    decreases |qs|
  {
    var init := qs[..|qs| - 1];
    if Collect(prepare, answer, init).Failure? {
      CollectFirstError(prepare, answer, init);
      var i :| 0 <= i < |init| && prepare(init[i]) == Failure(Collect(prepare, answer, init).error) &&
               forall j :: 0 <= j < i ==> prepare(init[j]).Success?;
      assert qs[i] == init[i];
      assert forall j :: 0 <= j < i ==> qs[j] == init[j];
    } else {
      CollectFailure(prepare, answer, init);
      assert forall j :: 0 <= j < |init| ==> qs[j] == init[j];
    }
  }

  /** On success every incoming RefID, and nothing else, has a response. */
  lemma {:induction false} CollectKeys(prepare: DataQuery -> Result<Prepared>, answer: Prepared -> DataResponse,
                                       qs: seq<DataQuery>)
    requires Collect(prepare, answer, qs).Success?
    ensures Collect(prepare, answer, qs).value.Keys == set i | 0 <= i < |qs| :: qs[i].refID
    decreases |qs|
  {
    if qs != [] {
      var init := qs[..|qs| - 1];
      CollectKeys(prepare, answer, init);
      assert forall i :: 0 <= i < |init| ==> init[i] == qs[i];
      assert (set i | 0 <= i < |qs| :: qs[i].refID) == (set i | 0 <= i < |init| :: init[i].refID) + {qs[|qs| - 1].refID};
    }
  }

  /** On success the response stored under a RefID is the answer to the last
      query carrying that RefID: a later query overwrites an earlier one. */
  lemma {:induction false} CollectLastWins(prepare: DataQuery -> Result<Prepared>, answer: Prepared -> DataResponse,
                                           qs: seq<DataQuery>, i: nat)
    requires Collect(prepare, answer, qs).Success? && i < |qs|
    requires forall j :: i < j < |qs| ==> qs[j].refID != qs[i].refID
    ensures prepare(qs[i]).Success?
    ensures qs[i].refID in Collect(prepare, answer, qs).value
    ensures Collect(prepare, answer, qs).value[qs[i].refID] == answer(prepare(qs[i]).value)
    decreases |qs|
  {
    var init := qs[..|qs| - 1];
    if i < |qs| - 1 {
      assert init[i] == qs[i];
      CollectLastWins(prepare, answer, init, i);
    }
  }

  /** An execution error does not abort the batch: it is stored, alone, as
      the response of the query's RefID. */
  lemma ExecuteErrorRecorded(b: Backend, ds: DatasourceInfo, qs: seq<DataQuery>, i: nat)
    requires Collect(Preparer(b, ds), Answerer(b), qs).Success? && i < |qs|
    requires forall j :: i < j < |qs| ==> qs[j].refID != qs[i].refID
    requires Prepare(b, ds, qs[i]).Success?
    requires b.execute(Prepare(b, ds, qs[i]).value.query, Prepare(b, ds, qs[i]).value.request).Failure?
    ensures qs[i].refID in Collect(Preparer(b, ds), Answerer(b), qs).value
    ensures Collect(Preparer(b, ds), Answerer(b), qs).value[qs[i].refID]
            == DataResponse([], Some(b.execute(Prepare(b, ds, qs[i]).value.query, Prepare(b, ds, qs[i]).value.request).error))
  {
    CollectLastWins(Preparer(b, ds), Answerer(b), qs, i);
  }

  /** `Query`: prepares and executes the queries in order. A preparation
      error returns an empty response with that error; otherwise the
      responses are keyed by the incoming RefIDs and the error is nil. */
  method Query(b: Backend, ds: DatasourceInfo, queries: seq<DataQuery>)
    returns (response: QueryDataResponse, err: Outcome)
    ensures Collect(Preparer(b, ds), Answerer(b), queries).Failure? ==>
              response == QueryDataResponse(map[]) && err == Fail(Collect(Preparer(b, ds), Answerer(b), queries).error)
    ensures Collect(Preparer(b, ds), Answerer(b), queries).Success? ==>
              response == QueryDataResponse(Collect(Preparer(b, ds), Answerer(b), queries).value) && err == Pass
  {
    response := QueryDataResponse(map[]);
    for i := 0 to |queries|
      invariant Collect(Preparer(b, ds), Answerer(b), queries[..i]) == Success(response.responses)
    {
      var reqQuery := queries[i];
      assert queries[..i + 1][..i] == queries[..i];
      var parsed := b.queryParse(reqQuery);
      if parsed.Failure? {
        CollectPrefixFailure(Preparer(b, ds), Answerer(b), queries, i + 1);
        return QueryDataResponse(map[]), Fail(parsed.error);
      }
      var query := parsed.value;
      var rawQuery := b.build(query);
      if rawQuery.Failure? {
        CollectPrefixFailure(Preparer(b, ds), Answerer(b), queries, i + 1);
        return QueryDataResponse(map[]), Fail(rawQuery.error);
      }
      query := query.(refID := reqQuery.refID, rawQuery := rawQuery.value);
      var request := CreateRequest(b.parseURL, ds, rawQuery.value, query.policy);
      if request.Failure? {
        CollectPrefixFailure(Preparer(b, ds), Answerer(b), queries, i + 1);
        return QueryDataResponse(map[]), Fail(request.error);
      }
      var resp := b.execute(query, request.value);
      if resp.Failure? {
        response := response.(responses := response.responses[query.refID := DataResponse([], Some(resp.error))]);
      } else {
        response := response.(responses := response.responses[query.refID := resp.value]);
      }
    }
    assert queries[..|queries|] == queries;
    err := Pass;
  }
}
