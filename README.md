# pyobis core in Dafny

pyobis is a Python client for the OBIS (Ocean Biodiversity Information
System) web API. This project models its query layer:

- how each query builds its URL and query arguments;
- how `OccQuery.search` fetches all matching occurrence records. It sends a
  probe of size 1, then `NumFullPages(target)` full pages of 5000 (that is
  `target div 5000` when target is at least 0, and none otherwise), then one
  tail page of `target mod 5000`. Each page's `after` cursor is the id of the last record
  accumulated so far;
- the optional measurement-or-fact ("mof") flatten and inner join;
- the mapper URLs of the query classes;
- the `TaxaResponse` object of the taxa module.

The HTTP session is an oracle. A `Transport` maps a request (url, params,
cache flag) to the response the server sends. `obis_GET` is modelled as the
checks pyobis applies to that response, in order: status, then content type,
then the JSON body.

Modules:

- `Builtins`: the Python values the library relies on.
  - Exceptions.
  - Scalars and their `str()`.
  - Truthiness.
  - Insertion-ordered dicts.
  - `str.join` and `str.split`.
- `UrlEncoding`: `urllib.parse.urlencode` with `quote_plus` and UTF-8
  percent-encoding, together with a reference decoder to check it against.
- `ObisUtils`: `pyobis/obisutils.py`. It also holds the shared
  `OBISQueryResult` state: one `QueryState` object whose `url` and `args` are
  shared by every query object, as class attributes are in Python.
- `Occurrences`: `pyobis/occurrences/occurrences.py`.
- `Taxa`: `pyobis/taxa/taxa.py`.
- `Dataset`: `pyobis/dataset/dataset.py`.
- `Nodes`: `pyobis/nodes/nodes.py`.

Points where the model does what the code does:

- `search` never clamps the requested size to the server's total.
- The tail request is always sent, even when `target mod 5000` is 0. A total
  of 0 therefore still makes two requests.
- A negative size is not rejected. `range(5000, size + 1, 5000)` is then
  empty, so no full page is sent, and the tail asks for `size mod 5000`
  (Python's floored remainder, 4999 for a size of -1), making two requests
  in all.
- A full page ends the search when the cursor is read only if the frame is
  still empty after it, which can happen only on the first full page. It then
  raises `IndexError` when the frame already has an "id" column and
  `KeyError("id")` when it does not. A later empty page leaves the cursor
  where it was.
- In `search` the args dictionary is the shared one. The size and cursor the
  loop writes into it are what `get_mapper_url` later sees.
- `DatasetQuery.search` accepts `flags` but does not send it.
- The query methods of occurrences, dataset and nodes hand their keyword
  arguments to `obis_GET`, so a `cache` keyword picks the cached or the plain
  session for every JSON request. The methods take that flag as `cache`
  (True when the caller passes none). The KML branch of `grid` and the vector
  tile branch of `tile` hand the same keywords to `requests.get`, which does
  not accept `cache`: there a `cache` keyword raises `TypeError` before
  anything is sent. `TaxaResponse.execute` passes `cache=` itself ahead of
  its own keyword arguments, so a `cache` keyword given to `execute` raises
  `TypeError` as well; the model's `Execute` takes no keyword arguments.
- `taxon` and `annotations` bind `id`, `scientificname` and `cache` to their
  parameters, so their extra keyword arguments never hold those keys (Python
  raises `TypeError` for a keyword given twice); the model requires the same
  of its callers.

`OBISQueryResult` itself is not part of this model. Its `url` and `args`
class attributes are modelled by `QueryState`, whose constructor starts them
as `""` and an empty dictionary; those initial values are the model's choice,
not something the source defines, and every query sets both before it reads
them. The per-object `mapper` flag
starts unset, so `get_mapper_url` before any query raises `AttributeError`.

## Model

| member | source | states |
|---|---|---|
| Builtins.IntStrRoundTrip | pyobis/obisutils.py:110-111 | `int(str(i)) == i` for every int, so the decimal rendering handle_arrint writes reads back |
| Builtins.GetMerge | pyobis/taxa/taxa.py:67 | `{**a, **b}[k]` is b's value when b has k, otherwise a's |
| Builtins.MergeIntoEmpty | pyobis/taxa/taxa.py:67 | `{**{}, **kwargs}` is kwargs, same entries in the same order |
| Builtins.SplitJoin | pyobis/obisutils.py:99 | `",".join` followed by split gives the list back when no element holds the separator |
| UrlEncoding.QuotePlusRoundTrip | pyobis/obisutils.py:34 | unquote_plus undoes quote_plus on every string (spaces as '+', UTF-8 percent escapes) |
| UrlEncoding.UrlEncodeRoundTrip | pyobis/obisutils.py:34 | parsing the urlencoded string gives every entry back, key and str() of its value, in order |
| ObisUtils.ColumnsOfAll | pyobis/occurrences/occurrences.py:148 | a frame built from records has every column of every record, and no column when it has no records |
| ObisUtils.ColumnsOfAllExact | pyobis/occurrences/occurrences.py:148 | a column is in that frame exactly when some record supplies it, so the columns are the union of the records' columns and no superset |
| ObisUtils.BuildApiUrl | pyobis/obisutils.py:30-34 | the URL starts with url followed by "?" |
| ObisUtils.BuildApiUrlQuery | pyobis/obisutils.py:30-34 | the query string holds exactly the non-None entries of args, in insertion order, as str() renders them; the "?" is there even with none |
| ObisUtils.BuildApiUrlDropsNone | pyobis/obisutils.py:34 | setting an entry to None builds the same URL as deleting it |
| ObisUtils.HandleArrStr | pyobis/obisutils.py:91-99 | None stays None, a string is kept, a list becomes a string |
| ObisUtils.HandleArrStrRoundTrip | pyobis/obisutils.py:99 | splitting the joined names on "," gives the list back, for non-empty lists of names without commas |
| ObisUtils.HandleArrInt | pyobis/obisutils.py:102-111 | None stays None, an int stays an int, a list becomes a string |
| ObisUtils.HandleArrIntRoundTrip | pyobis/obisutils.py:110-111 | the joined list splits into as many pieces as ints, each parsing back to its int |
| ObisUtils.StopIfNot | pyobis/obisutils.py:80-83 | raises exactly when x differs from ctype; the exception is NoResultException with message "content-type did not equal " + ctype |
| ObisUtils.Stop | pyobis/obisutils.py:86-88 | always raises ValueError carrying x |
| ObisUtils.RaiseForStatus | pyobis/obisutils.py:61 | raises HTTPError exactly for 4xx and 5xx statuses |
| ObisUtils.CheckContentType | pyobis/obisutils.py:62 | passes exactly when the content-type header is present and equals ctype |
| ObisUtils.ObisGet | pyobis/obisutils.py:37-63 | returns the body exactly when the status is not an error, the content type matches and the body is JSON; an error status raises HTTPError first; a wrong content type raises NoResultException |
| Occurrences.SearchArgsProbe | pyobis/occurrences/occurrences.py:121-138 | search's args form a dictionary; the probe asks for size 1 and carries no cursor, the normalised name, the taxon id and the mof flag |
| Occurrences.NumFullPages | pyobis/occurrences/occurrences.py:150 | the number of passes n of `range(5000, target + 1, 5000)` satisfies n*5000 <= target < (n+1)*5000 (0 when target < 5000) |
| Occurrences.Target | pyobis/occurrences/occurrences.py:144-146 | a size that is neither None nor 0 is used as given; otherwise the probe's total is used, and a missing total raises |
| Occurrences.FetchFullPage | pyobis/occurrences/occurrences.py:151-169 | one pass: size 5000 is written into the args, one GET, the page's rows are appended, and the cursor is the frame's last id; an empty frame raises IndexError or KeyError("id") |
| Occurrences.FetchFullPages | pyobis/occurrences/occurrences.py:150-169 | the while loop over range(5000, target+1, 5000) gives the state of NumFullPages(target) passes, or of the pass that raised |
| Occurrences.FetchOccurrences | pyobis/occurrences/occurrences.py:141-199 | the probe, the loop, the tail and the join leave the outcome, the args and the request log that SearchSpec gives |
| Occurrences.SearchSpec | pyobis/occurrences/occurrences.py:141-199 | whatever raises, the probe with the caller's args and cache flag is the first request sent, and a search that returns has sent more than the probe |
| Occurrences.SearchPlan | pyobis/occurrences/occurrences.py:141-183 | a search that raises nothing makes NumFullPages(target) + 2 requests (target div 5000 + 2 when target is at least 0, and 2 when it is negative): first the probe with the caller's args, then all later ones to the same url with the caller's cache flag and filters, NumFullPages(target) of them with size 5000, and a last one with size target mod 5000 |
| Occurrences.SearchCursors | pyobis/occurrences/occurrences.py:150-183 | the first page carries the caller's cursor; every later request carries the id of the last row accumulated before it, and there always is one; the shared args end as the tail request's params |
| Occurrences.SearchOutcome | pyobis/occurrences/occurrences.py:148-199 | the returned frame holds the rows of every request after the probe in request order, with the probe's columns added to theirs; it is merged with its mof children exactly when mof is asked for and the probe's total is positive |
| Occurrences.EmptyFirstPage | pyobis/occurrences/occurrences.py:164-169 | an empty first full page ends the search after two requests, with IndexError when the probe returned a record and KeyError("id") when it returned none |
| Occurrences.SearchHonoursSize | pyobis/occurrences/occurrences.py:144-183 | against a server that returns exactly the number of records asked for, a search for size > 0 without mof returns exactly size rows |
| Occurrences.MofJoin | pyobis/occurrences/occurrences.py:186-198 | the join succeeds exactly when the frame has rows and a "mof" column, and then gives merged rows |
| Occurrences.MofJoinRows | pyobis/occurrences/occurrences.py:186-198 | with distinct record ids, the merge is each record followed by its own children, in frame order; (p, c) is a merged row exactly when p is a record of the frame and c one of its children |
| Occurrences.InnerJoinSound | pyobis/occurrences/occurrences.py:187-197 | whatever the ids, every merged row pairs a row of the frame with a child of a record that has the same id |
| Occurrences.AreaArgsKeys | pyobis/occurrences/occurrences.py:283-299 | the args of grid, getpoints, point, tile and centroid form a dictionary that holds the name as given, with no size and no cursor |
| Occurrences.RawGet | pyobis/occurrences/occurrences.py:303-308 | a plain GET returns the raw content exactly when the status is not an error and, when a content type is named, the header matches it |
| Occurrences.GridUrlRoundTrip | pyobis/occurrences/occurrences.py:282-302 | the grid URL names the precision, which parses back as the int, and ends in "/kml" exactly when geojson is falsy |
| Occurrences.PointUrlSegments | pyobis/occurrences/occurrences.py:460-461 | the point path splits back into x, y and z, with z empty when it is falsy |
| Occurrences.TileUrlSegments | pyobis/occurrences/occurrences.py:550-573 | the tile path splits back into x, y and z, with ".mvt" after z exactly when mvt is truthy |
| Occurrences.MapperArgs | pyobis/occurrences/occurrences.py:686-692 | a missing "taxonid" raises KeyError("taxonid"); any other failure is KeyError("scientificname") for a missing name or the lookup's own exception; nothing raises once taxonid is truthy |
| Occurrences.MapperArgsChanges | pyobis/occurrences/occurrences.py:686-692 | the taxon lookup leaves every other entry alone; taxonid becomes the lookup's answer exactly when it was falsy and the name truthy |
| Occurrences.MapperArgsIdempotent | pyobis/occurrences/occurrences.py:685-692 | a second get_mapper_url leaves the args as the first left them, once taxonid holds a truthy value |
| Occurrences.MapperUrlQuery | pyobis/occurrences/occurrences.py:694-699 | the mapper URL's query string holds the non-None entries of the shared args, in order |
| Occurrences.OccQuery.constructor | pyobis/occurrences/occurrences.py:22-25 | a new query object shares the url and args holder, and its mapper flag is unset |
| Occurrences.OccQuery.Search | pyobis/occurrences/occurrences.py:119-199 | sets the shared url and mapper; the outcome and the shared args are those of SearchSpec on the normalised arguments and the caller's cache flag |
| Occurrences.OccQuery.Get | pyobis/occurrences/occurrences.py:216-225 | url occurrence/str(id), empty args, mapper off, one JSON GET with the caller's cache flag |
| Occurrences.OccQuery.Grid | pyobis/occurrences/occurrences.py:282-315 | the grid URL and the unnormalised args; a JSON GET with the cache keyword or its default, or for KML a plain GET that checks for XML and raises TypeError when a cache keyword is passed |
| Occurrences.OccQuery.GetPoints | pyobis/occurrences/occurrences.py:372-398 | url occurrence/points, the normalised args, mapper off, one JSON GET with the caller's cache flag |
| Occurrences.OccQuery.Point | pyobis/occurrences/occurrences.py:460-487 | the point URL, the normalised args, mapper off, one JSON GET with the caller's cache flag |
| Occurrences.OccQuery.Tile | pyobis/occurrences/occurrences.py:550-587 | the tile URL and the normalised args; for mvt a plain GET with no content-type check that raises TypeError when a cache keyword is passed, otherwise a JSON GET with the cache keyword or its default |
| Occurrences.OccQuery.Centroid | pyobis/occurrences/occurrences.py:640-666 | url occurrence/centroid, the normalised args, mapper off, one JSON GET with the caller's cache flag |
| Occurrences.OccQuery.MapperUrl | pyobis/occurrences/occurrences.py:685-701 | AttributeError before any query, the fixed message after a query other than search; after search, the lookup's args are written back and the URL is built from them |
| Taxa.SearchQuery | pyobis/taxa/taxa.py:37-41 | raises TypeError exactly when no name is given; the only argument is the normalised name |
| Taxa.SearchApiUrl | pyobis/taxa/taxa.py:37-41 | the name is the path segment after taxon/ and the query string's only entry |
| Taxa.SearchPathNames | pyobis/taxa/taxa.py:37-38 | a list of names without commas splits back out of the path segment |
| Taxa.TaxonQuery | pyobis/taxa/taxa.py:44-67 | the path names str(id), and the args are the caller's keyword arguments unchanged, which never hold "id" or "cache" |
| Taxa.AnnotationsQuery | pyobis/taxa/taxa.py:70-94 | the annotations url with the caller's cache flag, for keyword arguments that do not hold "scientificname" or "cache" |
| Taxa.AnnotationsArgs | pyobis/taxa/taxa.py:70-94 | the args are "scientificname" first with the normalised name, then the keyword arguments in the caller's order; they form a dictionary with no other key, and "cache" is not sent |
| Builtins.MergeOntoSingle | pyobis/taxa/taxa.py:94 | `{**{k: v}, **b}` keeps k first, with b's value for k if b has one, followed by b's other entries in order |
| Taxa.TaxaResponse.constructor | pyobis/taxa/taxa.py:102-114 | no data, api_url built from url and args, no mapper url |
| Taxa.TaxaResponse.Execute | pyobis/taxa/taxa.py:116-128 | one GET with the stored url, args and cache flag; data is replaced only on success, after which to_pandas gives the fetched results |
| Taxa.TaxaResponse.ToPandas | pyobis/taxa/taxa.py:130-134 | TypeError before data is fetched, KeyError without results; otherwise the fetched results as rows, and as columns exactly the union of the records' columns |
| Taxa.Search | pyobis/taxa/taxa.py:10-41 | a fresh response for SearchQuery, or its TypeError |
| Taxa.Taxon | pyobis/taxa/taxa.py:44-67 | a fresh response whose args are the keyword arguments |
| Taxa.Annotations | pyobis/taxa/taxa.py:70-94 | a fresh response for AnnotationsQuery |
| Dataset.DatasetArgsKeys | pyobis/dataset/dataset.py:101-112 | search's args form a dictionary with the name, the offset and the limit under "size"; flags is not sent |
| Dataset.DatasetDefaultSearch | pyobis/dataset/dataset.py:14-27 | search with no arguments sends exactly "offset" 0 and "size" 500, the defaults, since every other entry is None and dropped |
| Dataset.DatasetQuery.constructor | pyobis/dataset/dataset.py:9-12 | the shared holder; mapper and dataset id unset |
| Dataset.DatasetQuery.MapperUrl | pyobis/dataset/dataset.py:163-166 | AttributeError before a query, the fixed message after search, the mapper URL of the dataset id after get |
| Dataset.DatasetQuery.Search | pyobis/dataset/dataset.py:99-120 | url dataset and the search args, one JSON GET with the caller's cache flag; the mapper is switched off only once the GET has succeeded |
| Dataset.DatasetQuery.Get | pyobis/dataset/dataset.py:136-147 | url dataset/str(id), empty args, one JSON GET with the caller's cache flag; mapper on and the id recorded before the GET, so the mapper URL names the dataset |
| Nodes.NodesQuery.constructor | pyobis/nodes/nodes.py:9-12 | the shared holder; mapper and node id unset |
| Nodes.NodesQuery.MapperUrl | pyobis/nodes/nodes.py:80-83 | AttributeError before a query, the fixed message after activities, the mapper URL of the node after search |
| Nodes.NodesQuery.Search | pyobis/nodes/nodes.py:28-39 | TypeError with nothing changed for an id that is not a string; otherwise url node/id, empty args, mapper on, the node id recorded, one JSON GET with the caller's cache flag |
| Nodes.NodesQuery.Activities | pyobis/nodes/nodes.py:55-64 | TypeError with nothing changed for an id that is not a string; otherwise url node/id/activities, empty args, mapper off, node id kept, one JSON GET with the caller's cache flag |

## Left out

- The HTTP session: headers, the request cache, retries, sockets and time. A response is whatever the `Transport` oracle returns for a request.
- Keyword arguments other than `cache` that are forwarded to `requests` (timeouts, proxies and the like): they change how a request travels, not its url or params.
- `obis_write_disk`, `download.py` and `cache.py`: file and cache I/O.
- The progress lines that search prints.
- `lookup_taxon` is an oracle that gives the id of the best match, or the exception that indexing its answer raises.
- pandas details beyond columns and rows: dtypes, the index, merge suffixes for clashing column names, and NaN for a record missing a column.
- The JSON round trip of the frame before `json_normalize` is taken as the identity.
- The response body keeps only `total` and `results`; every other JSON field is left out.
- Records are modelled with an id: every record, whether an occurrence, a taxon or an annotation, gets an "id" column. A page of occurrences without ids, and taxa or annotations results keyed by "taxonID" with no "id", are modelled only as if they carried one.
- Default argument values: every operation of the model takes all its arguments, and a caller who omits one in Python gets the source's default, which the caller of the model passes instead: offset 0 and mof False for occurrence search, limit 500 and offset 0 for dataset search (shown by Dataset.DatasetDefaultSearch), geojson True for grid, mvt 0 for tile, z None for point, and cache True everywhere.
- A record whose "mof" value is neither a list nor null: the model gives it no children, where `json_normalize` raises. Records are taken to carry a list, null or nothing under "mof".
- A mof child that holds an "id" key of its own: `json_normalize` raises ValueError for the clash with the "id" meta column; the model flattens it like any other child.
- Floats: x, y and z of point and tile are scalars whose `str()` the model renders; float formatting is left out.
- Occurrences.SearchHonoursSize: covers only sizes given by the caller and searches without mof.
- Occurrences.MofJoinRows: assumes record ids are distinct; InnerJoinSound covers repeated ids.
