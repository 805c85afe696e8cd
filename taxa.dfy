/** pyobis/taxa/taxa.py: the three builders of taxon queries, which only
    compute a URL and arguments, and TaxaResponse, which holds them, fetches
    on execute and converts the fetched results to a frame. */
module Taxa {
  import opened Builtins
  import opened UrlEncoding
  import opened ObisUtils

  /** What a builder hands to TaxaResponse. */
  datatype Query = Query(url: string, args: Dict, cache: bool)

  const TaxonPrefix: string := BaseUrl + "taxon/"

  /** search: the normalised name is both the last path segment and the
      only argument; no name makes the concatenation raise TypeError. */
  function SearchQuery(scientificname: StrArg, cache: bool): (r: Result<Query>)
    ensures r.Err? <==> scientificname.NoStr?
    ensures r.Err? ==> r.error == TypeError
    ensures r.Ok? ==> r.value.cache == cache && Get(r.value.args, "scientificname") == Some(HandleArrStr(scientificname))
  {
    match HandleArrStr(scientificname)
    case VStr(name) => Ok(Query(TaxonPrefix + name, [("scientificname", VStr(name))], cache))
    case _ => Err(TypeError)
  }

  /** The URL of search names the taxa in its path and again in its query
      string. */
  lemma SearchApiUrl(scientificname: StrArg, cache: bool)
    requires !scientificname.NoStr?
    ensures var q := SearchQuery(scientificname, cache).value;
      var name := HandleArrStr(scientificname).s;
      q.url[..|TaxonPrefix|] == TaxonPrefix && q.url[|TaxonPrefix|..] == name &&
      ParseQuery(BuildApiUrl(q.url, q.args)[|q.url| + 1..]) == [("scientificname", name)]
  {
    var name := HandleArrStr(scientificname).s;
    assert SearchQuery(scientificname, cache).value == Query(TaxonPrefix + name, [("scientificname", VStr(name))], cache);
    SingleArgQuery(TaxonPrefix + name, "scientificname", name);
  }

  /** For a list of names without commas, the path segment of search splits
      back into the list. */
  lemma SearchPathNames(xs: seq<string>, cache: bool)
    requires xs != [] && forall i :: 0 <= i < |xs| ==> ',' !in xs[i]
    ensures Split(SearchQuery(ManyStr(xs), cache).value.url[|TaxonPrefix|..], ',') == xs
  {
    var q := SearchQuery(ManyStr(xs), cache).value;
    assert q.url[|TaxonPrefix|..] == HandleArrStr(ManyStr(xs)).s;
    HandleArrStrRoundTrip(xs);
  }

  /** taxon: the id rendered by str() in the path, and the caller's extra
      keyword arguments, unchanged, as the arguments. Python binds "id" and
      "cache" to the parameters, so they are never among the keyword
      arguments. */
  function TaxonQuery(id: Value, kwargs: Dict, cache: bool): (r: Query)
    requires DistinctKeys(kwargs) && !HasKey(kwargs, "id") && !HasKey(kwargs, "cache")
    ensures r.args == kwargs && r.cache == cache
    ensures |r.url| >= |TaxonPrefix| && r.url[..|TaxonPrefix|] == TaxonPrefix && r.url[|TaxonPrefix|..] == Str(id)
  {
    MergeIntoEmpty(kwargs);
    Query(TaxonPrefix + Str(id), Merge([], kwargs), cache)
  }

  const AnnotationsUrl: string := BaseUrl + "taxon/annotations"

  /** annotations: the normalised name, then the caller's extra keyword
      arguments. Python binds "scientificname" and "cache" to the
      parameters, so they are never among the keyword arguments. */
  function AnnotationsQuery(scientificname: StrArg, kwargs: Dict, cache: bool): (r: Query)
    requires !HasKey(kwargs, "scientificname") && !HasKey(kwargs, "cache")
    ensures r.url == AnnotationsUrl && r.cache == cache
  {
    Query(AnnotationsUrl, Merge([("scientificname", HandleArrStr(scientificname))], kwargs), cache)
  }

  /** The arguments of annotations form a dictionary whose first key is
      "scientificname", holding the normalised name, followed by the keyword
      arguments in the caller's order, and no other key; "cache" is not
      sent. */
  lemma AnnotationsArgs(scientificname: StrArg, kwargs: Dict, cache: bool, k: string)
    requires DistinctKeys(kwargs) && !HasKey(kwargs, "scientificname") && !HasKey(kwargs, "cache")
    ensures var args := AnnotationsQuery(scientificname, kwargs, cache).args;
      args == [("scientificname", HandleArrStr(scientificname))] + kwargs
    ensures DistinctKeys(AnnotationsQuery(scientificname, kwargs, cache).args)
    ensures !HasKey(AnnotationsQuery(scientificname, kwargs, cache).args, "cache")
    ensures Get(AnnotationsQuery(scientificname, kwargs, cache).args, k) ==
      if k == "scientificname" then Some(HandleArrStr(scientificname))
      else Get(kwargs, k)
  {
    var base := [("scientificname", HandleArrStr(scientificname))];
    var args := AnnotationsQuery(scientificname, kwargs, cache).args;
    assert args == base + kwargs by {
      MergeOntoSingle("scientificname", HandleArrStr(scientificname), kwargs);
      RemoveAbsent(kwargs, "scientificname");
    }
    assert args[1..] == kwargs;
    MergeKeepsDistinct(base, kwargs);
    assert Get(args, "cache") == Get(kwargs, "cache");
  }

  // ---------------------------------------------------------------------
  // TaxaResponse

  class TaxaResponse {
    /** The body fetched by the last successful execute. */
    var data: Option<Body>
    var apiUrl: string
    var mapperUrl: Option<string>
    const url: string
    const args: Dict
    const cache: bool

    /** The API URL is computed once, from the url and args given. */
    constructor (url: string, args: Dict, cache: bool)
      ensures data == None && apiUrl == BuildApiUrl(url, args) && mapperUrl == None
      ensures this.url == url && this.args == args && this.cache == cache
    {
      data := None;
      apiUrl := BuildApiUrl(url, args);
      mapperUrl := None;
      this.url := url;
      this.args := args;
      this.cache := cache;
    }

    /** execute: one GET with the stored url, args and cache flag; the body
        is kept only when the call raised nothing. */
    method Execute(transport: Transport) returns (r: Result<Body>)
      modifies this`data
      ensures r == JsonGet(transport, Request(url, args, cache))
      ensures data == if r.Ok? then Some(r.value) else old(data)
      ensures r.Ok? && r.value.results.Some? ==> ToPandas() == Ok(Table(ColumnsOfAll(r.value.results.value), r.value.results.value))
    {
      var out := JsonGet(transport, Request(url, args, cache));
      if out.Err? {
        return out;
      }
      data := Some(out.value);
      r := out;
    }

    /** to_pandas: a frame of the fetched results, its columns the union
        of the records' keys; before any execute, or without results, the
        lookup raises. */
    function ToPandas(): (r: Result<Table>)
      reads this`data
      ensures data.None? ==> r == Err(TypeError)
      ensures data.Some? && data.value.results.None? ==> r == Err(KeyError("results"))
      ensures r.Ok? ==> data.Some? && data.value.results == Some(r.value.rows)
      ensures r.Ok? ==> forall c :: c in r.value.columns <==> exists i :: 0 <= i < |r.value.rows| && c in Columns(r.value.rows[i])
    {
      match data
      case None => Err(TypeError)
      case Some(b) =>
        match b.results
        case None => Err(KeyError("results"))
        case Some(rs) => ColumnsOfAllExact(rs); Ok(Table(ColumnsOfAll(rs), rs))
    }
  }

  /** search(...) returns a fresh TaxaResponse for the query, or raises
      before making one. */
  method Search(scientificname: StrArg, cache: bool) returns (r: Result<TaxaResponse>)
    ensures r.Ok? <==> SearchQuery(scientificname, cache).Ok?
    ensures r.Err? ==> r.error == TypeError
    ensures r.Ok? ==> var q := SearchQuery(scientificname, cache).value;
      fresh(r.value) && r.value.url == q.url && r.value.args == q.args && r.value.cache == cache &&
      r.value.data == None && r.value.apiUrl == BuildApiUrl(q.url, q.args)
  {
    var q := SearchQuery(scientificname, cache);
    if q.Err? {
      return Err(q.error);
    }
    var resp := new TaxaResponse(q.value.url, q.value.args, q.value.cache);
    r := Ok(resp);
  }

  method Taxon(id: Value, kwargs: Dict, cache: bool) returns (r: TaxaResponse)
    requires DistinctKeys(kwargs) && !HasKey(kwargs, "id") && !HasKey(kwargs, "cache")
    ensures fresh(r) && r.url == TaxonQuery(id, kwargs, cache).url && r.args == kwargs && r.cache == cache
    ensures r.data == None && r.apiUrl == BuildApiUrl(r.url, kwargs)
  {
    var q := TaxonQuery(id, kwargs, cache);
    r := new TaxaResponse(q.url, q.args, q.cache);
  }

  method Annotations(scientificname: StrArg, kwargs: Dict, cache: bool) returns (r: TaxaResponse)
    requires !HasKey(kwargs, "scientificname") && !HasKey(kwargs, "cache")
    ensures var q := AnnotationsQuery(scientificname, kwargs, cache);
      fresh(r) && r.url == q.url && r.args == q.args && r.cache == cache &&
      r.data == None && r.apiUrl == BuildApiUrl(q.url, q.args)
  {
    var q := AnnotationsQuery(scientificname, kwargs, cache);
    r := new TaxaResponse(q.url, q.args, q.cache);
  }
}
