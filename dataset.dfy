/** pyobis/dataset/dataset.py: DatasetQuery, whose search and get set the
    shared url and args and make one GET, and whose get_mapper_url is
    available after get. */
module Dataset {
  import opened Builtins
  import opened UrlEncoding
  import opened ObisUtils

  /** The filters of search other than the name and the paging values. */
  datatype DatasetFilters = DatasetFilters(
    taxonid: Value, nodeid: Value, startdate: Value, enddate: Value,
    startdepth: Value, enddepth: Value, geometry: Value, flags: Value)

  /** The args dictionary of search, in its insertion order; limit is sent
      as "size", and flags is accepted but not sent. */
  function DatasetArgs(scientificname: Value, f: DatasetFilters, limit: Value, offset: Value): Dict {
    [("taxonid", f.taxonid), ("nodeid", f.nodeid), ("scientificname", scientificname),
     ("startdate", f.startdate), ("enddate", f.enddate), ("startdepth", f.startdepth),
     ("enddepth", f.enddepth), ("geometry", f.geometry), ("offset", offset), ("size", limit)]
  }

  /** The arguments of search form a dictionary with the name, the offset
      and the limit under "size"; flags is not among them, so it never
      reaches the query string. */
  lemma DatasetArgsKeys(scientificname: Value, f: DatasetFilters, limit: Value, offset: Value)
    ensures DistinctKeys(DatasetArgs(scientificname, f, limit, offset))
    ensures Get(DatasetArgs(scientificname, f, limit, offset), "scientificname") == Some(scientificname)
    ensures Get(DatasetArgs(scientificname, f, limit, offset), "size") == Some(limit)
    ensures Get(DatasetArgs(scientificname, f, limit, offset), "offset") == Some(offset)
    ensures !HasKey(DatasetArgs(scientificname, f, limit, offset), "flags")
  {
    var a := DatasetArgs(scientificname, f, limit, offset);
    assert !HasKey(a, "flags") by {
      forall i | 0 <= i < |a| ensures a[i].0 != "flags" {
      }
    }
    GetAt(a, 2);
    GetAt(a, 8);
    GetAt(a, 9);
  }

  /** The defaults of search's limit and offset. */
  const DefaultLimit: int := 500
  const DefaultOffset: int := 0

  const NoDatasetFilters: DatasetFilters :=
    DatasetFilters(VNone, VNone, VNone, VNone, VNone, VNone, VNone, VNone)

  /** search() with no arguments: every filter is None and so left out of
      the query string, which carries only the default offset 0 and the
      default size 500. */
  lemma DatasetDefaultSearch(url: string)
    ensures var args := DatasetArgs(VNone, NoDatasetFilters, VInt(DefaultLimit), VInt(DefaultOffset));
      Get(args, "size") == Some(VInt(500)) && Get(args, "offset") == Some(VInt(0)) &&
      ParseQuery(BuildApiUrl(url, args)[|url| + 1..]) == [("offset", "0"), ("size", "500")]
  {
    var args := DatasetArgs(VNone, NoDatasetFilters, VInt(DefaultLimit), VInt(DefaultOffset));
    DatasetArgsKeys(VNone, NoDatasetFilters, VInt(DefaultLimit), VInt(DefaultOffset));
    DefaultArgsNonNone();
    PagingQuery(url, args);
  }

  /** Arguments whose only non-None entries are the default paging values
      give a query string of exactly those two entries. */
  lemma PagingQuery(url: string, args: Dict)
    requires NonNone(args) == [("offset", VInt(DefaultOffset)), ("size", VInt(DefaultLimit))]
    ensures ParseQuery(BuildApiUrl(url, args)[|url| + 1..]) == [("offset", "0"), ("size", "500")]
  {
    DefaultStrs();
    BuildApiUrlQuery(url, args);
  }

  lemma DefaultStrs()
    ensures Str(VInt(DefaultOffset)) == "0" && Str(VInt(DefaultLimit)) == "500"
  {
    assert 500 / 10 == 50 && 500 % 10 == 0 && 50 / 10 == 5 && 50 % 10 == 0;
    assert DigitChar(0) == '0' && DigitChar(5) == '5';
    assert Digits(50) == Digits(5) + [DigitChar(0)];
  }

  lemma DefaultArgsNonNone()
    ensures NonNone(DatasetArgs(VNone, NoDatasetFilters, VInt(DefaultLimit), VInt(DefaultOffset))) ==
      [("offset", VInt(0)), ("size", VInt(500))]
  {
    var args := DatasetArgs(VNone, NoDatasetFilters, VInt(DefaultLimit), VInt(DefaultOffset));
    var paging := [("offset", VInt(0)), ("size", VInt(500))];
    assert NonNone(args[8..]) == paging by {
      assert args[8..][1..] == [("size", VInt(500))];
      assert args[8..][1..][1..] == [];
    }
    assert args[7..][1..] == args[8..];
    assert args[6..][1..] == args[7..];
    assert args[5..][1..] == args[6..];
    assert args[4..][1..] == args[5..];
    assert args[3..][1..] == args[4..];
    assert args[2..][1..] == args[3..];
    assert args[1..][1..] == args[2..];
  }

  const DatasetMapperBase: string := MapperBase + "?datasetid="

  class DatasetQuery {
    /** The url and args of the last query, shared by every query object. */
    const shared: QueryState
    var mapper: Option<bool>
    var datasetid: Option<string>

    constructor (shared: QueryState)
      ensures this.shared == shared && mapper == None && datasetid == None
    {
      this.shared := shared;
      mapper := None;
      datasetid := None;
    }

    /** get_mapper_url: the mapper view of the dataset last fetched with
        get, the fixed message after search, AttributeError before either. */
    function MapperUrl(): (r: Result<string>)
      reads this`mapper, this`datasetid
      ensures mapper.None? ==> r == Err(AttributeError("mapper"))
      ensures mapper == Some(false) ==> r == Ok(NoMapperUrl)
      ensures mapper == Some(true) && datasetid.Some? ==> r == Ok(DatasetMapperBase + datasetid.value)
    {
      match mapper
      case None => Err(AttributeError("mapper"))
      case Some(m) =>
        if !m then Ok(NoMapperUrl)
        else
          match datasetid
          case None => Err(AttributeError("datasetid"))
          case Some(id) => Ok(DatasetMapperBase + id)
    }

    /** search: mapper is cleared only once the GET has succeeded, so a
        failed search leaves it as it was. */
    method Search(transport: Transport, scientificname: StrArg, f: DatasetFilters, limit: Value, offset: Value, cache: bool)
      returns (out: Result<Body>)
      modifies this, shared
      ensures shared.url == BaseUrl + "dataset"
      ensures shared.args == DatasetArgs(HandleArrStr(scientificname), f, limit, offset)
      ensures out == JsonGet(transport, Request(shared.url, shared.args, cache))
      ensures mapper == (if out.Ok? then Some(false) else old(mapper)) && datasetid == old(datasetid)
      ensures out.Ok? ==> MapperUrl() == Ok(NoMapperUrl)
    {
      shared.url := BaseUrl + "dataset";
      shared.args := DatasetArgs(HandleArrStr(scientificname), f, limit, offset);
      out := JsonGet(transport, Request(shared.url, shared.args, cache));
      if out.Ok? {
        mapper := Some(false);
      }
    }

    /** get: the id is recorded for the mapper before the GET, so the
        mapper URL names it even when the GET raises. */
    method Get(transport: Transport, id: Value, cache: bool) returns (out: Result<Body>)
      modifies this, shared
      ensures shared.url == BaseUrl + "dataset/" + Str(id) && shared.args == []
      ensures mapper == Some(true) && datasetid == Some(Str(id))
      ensures out == JsonGet(transport, Request(shared.url, [], cache))
      ensures MapperUrl() == Ok(DatasetMapperBase + Str(id))
    {
      shared.url := BaseUrl + "dataset/" + Str(id);
      shared.args := [];
      mapper := Some(true);
      datasetid := Some(Str(id));
      out := JsonGet(transport, Request(shared.url, shared.args, cache));
    }
  }
}
