/** pyobis/obisutils.py: the URL builder, the argument normalisers, the
    content-type guard, and the transport contract of obis_GET. The HTTP
    session itself (headers, cache, sockets) is an oracle: a Transport maps a
    request to the response the server sends. */
module ObisUtils {
  import opened Builtins
  import opened UrlEncoding

  const BaseUrl: string := "https://api.obis.org/v3/"
  const JsonType: string := "application/json; charset=utf-8"
  const MapperBase: string := "https://mapper.obis.org/"
  /** What every get_mapper_url returns when the last query has no mapper
      view. */
  const NoMapperUrl: string := "An OBIS mapper URL doesnot exist for this query"

  // ---------------------------------------------------------------------
  // What the server sends back.

  /** One element of a record's nested "mof" (measurement or fact) list. */
  type Child = map<string, Value>

  /** An API record: its id, its other top-level fields, and its "mof"
      list when the record carries that key. */
  datatype Record = Record(id: string, fields: map<string, Value>, mof: Option<seq<Child>>)

  /** The JSON body of a response: the fields the library reads. */
  datatype Body = Body(total: Option<int>, results: Option<seq<Record>>)

  /** An HTTP response: status, the content-type header if present, the
      body parsed as JSON if it parses, and the raw content. */
  datatype HttpResponse = HttpResponse(status: int, contentType: Option<string>, json: Option<Body>, content: seq<byte>)

  /** One GET: the URL, the query parameters at the time of the call, and
      whether the caching session is used. */
  datatype Request = Request(url: string, params: Dict, cache: bool)

  type Transport = Request -> HttpResponse

  /** A data frame built from records: its column names and its rows. */
  datatype Table = Table(columns: set<string>, rows: seq<Record>)

  /** The column names a record contributes to a data frame. */
  function Columns(r: Record): (cs: set<string>)
    ensures "id" in cs
    ensures ("mof" in cs) <==> (r.mof.Some? || "mof" in r.fields)
  {
    {"id"} + r.fields.Keys + (if r.mof.Some? then {"mof"} else {})
  }

  /** The columns of a frame built from records: the union of the
      records' columns. */
  function ColumnsOfAll(rs: seq<Record>): (cs: set<string>)
    ensures forall i :: 0 <= i < |rs| ==> Columns(rs[i]) <= cs
    ensures rs == [] ==> cs == {}
  {
    if rs == [] then {} else Columns(rs[0]) + ColumnsOfAll(rs[1..])
  }

  /** A frame has no column that none of its records supplies. */
  lemma {:induction false} ColumnsOfAllExact(rs: seq<Record>)
    ensures forall c :: c in ColumnsOfAll(rs) <==> exists i :: 0 <= i < |rs| && c in Columns(rs[i])
  {
    if rs != [] {
      ColumnsOfAllExact(rs[1..]);
      forall c | c in ColumnsOfAll(rs) ensures exists i :: 0 <= i < |rs| && c in Columns(rs[i]) {
        if c !in Columns(rs[0]) {
          assert c in ColumnsOfAll(rs[1..]);
          var i :| 0 <= i < |rs[1..]| && c in Columns(rs[1..][i]);
          assert rs[1..][i] == rs[i + 1];
        }
      }
    }
  }

  lemma {:induction false} ColumnsOfAllAppend(a: seq<Record>, b: seq<Record>)
    ensures ColumnsOfAll(a + b) == ColumnsOfAll(a) + ColumnsOfAll(b)
  {
    if a != [] {
      assert (a + b)[1..] == a[1..] + b;
      ColumnsOfAllAppend(a[1..], b);
    } else {
      assert a + b == b;
    }
  }

  // ---------------------------------------------------------------------
  // build_api_url

  /** url + "?" + urlencode of the entries of args whose value is not None. */
  function BuildApiUrl(url: string, args: Dict): (r: string)
    ensures |r| > |url| && r[..|url| + 1] == url + "?"
  {
    url + "?" + UrlEncode(NonNone(args))
  }

  /** The query string of build_api_url holds exactly the non-None entries
      of args, in insertion order, each value as str() renders it; the "?"
      is there even when no entry is left. */
  lemma BuildApiUrlQuery(url: string, args: Dict)
    ensures |BuildApiUrl(url, args)| > |url|
    ensures BuildApiUrl(url, args)[|url|] == '?'
    ensures ParseQuery(BuildApiUrl(url, args)[|url| + 1..]) == Rendered(NonNone(args))
  {
    assert BuildApiUrl(url, args)[|url| + 1..] == UrlEncode(NonNone(args));
    UrlEncodeRoundTrip(NonNone(args));
  }

  /** A URL built from one string argument carries exactly that entry. */
  lemma SingleArgQuery(url: string, k: string, v: string)
    ensures ParseQuery(BuildApiUrl(url, [(k, VStr(v))])[|url| + 1..]) == [(k, v)]
  {
    var d := [(k, VStr(v))];
    assert NonNone(d) == d by {
      assert d[1..] == [];
    }
    assert Rendered(d) == [(k, v)] by {
      assert d[1..] == [];
    }
    BuildApiUrlQuery(url, d);
  }

  /** An entry set to None does not reach the query string. */
  lemma BuildApiUrlDropsNone(url: string, args: Dict, k: string)
    requires DistinctKeys(args)
    ensures BuildApiUrl(url, Set(args, k, VNone)) == BuildApiUrl(url, Remove(args, k))
  {
    NonNoneSetNone(args, k);
  }

  lemma {:induction false} NonNoneSetNone(d: Dict, k: string)
    requires DistinctKeys(d)
    ensures NonNone(Set(d, k, VNone)) == NonNone(Remove(d, k))
  {
    if d != [] {
      if d[0].0 == k {
        assert !HasKey(d[1..], k);
        RemoveAbsent(d[1..], k);
      } else {
        NonNoneSetNone(d[1..], k);
      }
    }
  }

  // ---------------------------------------------------------------------
  // handle_arrstr and handle_arrint: the shapes a caller may pass.

  datatype StrArg = NoStr | OneStr(s: string) | ManyStr(xs: seq<string>)
  datatype IntArg = NoInt | OneInt(i: int) | ManyInt(xs: seq<int>)

  /** handle_arrstr: None stays None, a string is kept, a list of strings is
      joined with ",". */
  function HandleArrStr(x: StrArg): (r: Value)
    ensures r.VNone? <==> x.NoStr?
    ensures x.OneStr? ==> r == VStr(x.s)
    ensures x.ManyStr? ==> r.VStr?
  {
    match x
    case NoStr => VNone
    case OneStr(s) => VStr(s)
    case ManyStr(xs) => VStr(Join(xs, ','))
  }

  /** Splitting the joined names on "," gives the names back, when there is
      at least one and none contains a comma. */
  lemma HandleArrStrRoundTrip(xs: seq<string>)
    requires xs != []
    requires forall i :: 0 <= i < |xs| ==> ',' !in xs[i]
    ensures HandleArrStr(ManyStr(xs)).VStr?
    ensures Split(HandleArrStr(ManyStr(xs)).s, ',') == xs
  {
    SplitJoin(xs, ',');
  }

  function IntStrs(xs: seq<int>): (r: seq<string>)
    ensures |r| == |xs|
    ensures forall i :: 0 <= i < |xs| ==> r[i] == IntStr(xs[i])
  {
    if xs == [] then [] else [IntStr(xs[0])] + IntStrs(xs[1..])
  }

  /** handle_arrint: None stays None, an int stays an int (it is not turned
      into a string), a list of ints becomes their decimal renderings joined
      with ",". */
  function HandleArrInt(x: IntArg): (r: Value)
    ensures r.VNone? <==> x.NoInt?
    ensures x.OneInt? ==> r == VInt(x.i)
    ensures x.ManyInt? ==> r.VStr?
  {
    match x
    case NoInt => VNone
    case OneInt(i) => VInt(i)
    case ManyInt(xs) => VStr(Join(IntStrs(xs), ','))
  }

  /** The list handle_arrint writes is read back, element by element and in
      order, by splitting on "," and parsing each piece as an int. */
  lemma HandleArrIntRoundTrip(xs: seq<int>)
    requires xs != []
    ensures HandleArrInt(ManyInt(xs)).VStr?
    ensures var parts := Split(HandleArrInt(ManyInt(xs)).s, ',');
      |parts| == |xs| && forall i :: 0 <= i < |xs| ==> ParseInt(parts[i]) == xs[i]
  {
    var ss := IntStrs(xs);
    forall i | 0 <= i < |ss| ensures ',' !in ss[i] {
      IntStrHasNoSeparators(xs[i]);
    }
    SplitJoin(ss, ',');
    forall i | 0 <= i < |xs| ensures ParseInt(ss[i]) == xs[i] {
      IntStrRoundTrip(xs[i]);
    }
  }

  // ---------------------------------------------------------------------
  // stopifnot, stop, obis_GET

  /** stopifnot(x, ctype): raises NoResultException exactly when x differs
      from ctype, and has no other effect. */
  function StopIfNot(x: string, ctype: string): (r: Result<()>)
    ensures r.Ok? <==> x == ctype
    ensures r.Err? ==> r.error == NoResultException(ctype)
    ensures r.Err? ==> Message(r.error) == "content-type did not equal " + ctype
  {
    if x != ctype then Err(NoResultException(ctype)) else Ok(())
  }

  /** stop(x): always raises ValueError carrying x. */
  function Stop(x: string): (r: Result<()>)
    ensures r.Err? && r.error.ValueError? && r.error.msg == x
  {
    Err(ValueError(x))
  }

  /** The statuses for which requests' raise_for_status raises. */
  predicate IsErrorStatus(status: int) {
    400 <= status < 600
  }

  function RaiseForStatus(resp: HttpResponse): (r: Result<()>)
    ensures r.Ok? <==> !IsErrorStatus(resp.status)
  {
    if IsErrorStatus(resp.status) then Err(HTTPError(resp.status)) else Ok(())
  }

  /** Reading the content-type header, then the guard. */
  function CheckContentType(resp: HttpResponse, ctype: string): (r: Result<()>)
    ensures r.Ok? <==> resp.contentType == Some(ctype)
  {
    match resp.contentType
    case None => Err(KeyError("content-type"))
    case Some(x) => StopIfNot(x, ctype)
  }

  /** obis_GET once the session has answered: the status is checked before
      the content type, and the parsed body is returned only when both
      checks pass. */
  function ObisGet(resp: HttpResponse, ctype: string): (r: Result<Body>)
    ensures r.Ok? <==> !IsErrorStatus(resp.status) && resp.contentType == Some(ctype) && resp.json.Some?
    ensures r.Ok? ==> r.value == resp.json.value
    ensures IsErrorStatus(resp.status) ==> r == Err(HTTPError(resp.status))
    ensures !IsErrorStatus(resp.status) && resp.contentType.Some? && resp.contentType.value != ctype ==>
      r == Err(NoResultException(ctype))
  {
    match RaiseForStatus(resp)
    case Err(e) => Err(e)
    case Ok(_) =>
      match CheckContentType(resp, ctype)
      case Err(e) => Err(e)
      case Ok(_) =>
        match resp.json
        case None => Err(JSONDecodeError)
        case Some(b) => Ok(b)
  }

  /** One obis_GET call for JSON through the transport. */
  function JsonGet(transport: Transport, req: Request): Result<Body> {
    ObisGet(transport(req), JsonType)
  }

  // ---------------------------------------------------------------------
  // OBISQueryResult: the class-level url and args that every query object
  // shares, so the holder is one object that all of them reference.

  class QueryState {
    var url: string
    var args: Dict

    constructor ()
      ensures url == "" && args == []
    {
      url := "";
      args := [];
    }
  }
}
