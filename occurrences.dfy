/** pyobis/occurrences/occurrences.py: the paginated occurrence fetch of
    OccQuery.search, the measurement-or-fact join, the mapper URL, and the
    other occurrence endpoints, which only build a URL and arguments. */
module Occurrences {
  import opened Builtins
  import opened UrlEncoding
  import opened ObisUtils

  /** The page size of the fetch loop. */
  const PageSize: int := 5000
  const XmlType: string := "text/xml; charset=utf-8"

  /** One row of json_normalize(records, "mof", ["id"]): a child and the id
      of the record it came from. */
  datatype Flat = Flat(id: string, child: Child)

  /** One row of the inner merge on "id": the parent row and the child row
      joined to it. */
  datatype JoinedRow = JoinedRow(parent: Record, child: Child)

  /** What search returns: the accumulated frame, or the merged frame. */
  datatype SearchResult = Frame(table: Table) | Merged(rows: seq<JoinedRow>)

  // ---------------------------------------------------------------------
  // The arguments of search.

  datatype SearchFilters = SearchFilters(
    taxonid: Value, nodeid: Value, datasetid: Value, startdate: Value, enddate: Value,
    startdepth: Value, enddepth: Value, geometry: Value, year: Value, fields: Value,
    flags: Value, offset: Value, mof: bool, hasextensions: Value)

  /** The args dictionary search builds, in its insertion order; "size" is 1
      for the probe and there is no "after". */
  function SearchArgs(scientificname: Value, f: SearchFilters): Dict {
    [("taxonid", f.taxonid), ("nodeid", f.nodeid), ("datasetid", f.datasetid),
     ("scientificname", scientificname), ("startdate", f.startdate), ("enddate", f.enddate),
     ("startdepth", f.startdepth), ("enddepth", f.enddepth), ("geometry", f.geometry),
     ("year", f.year), ("fields", f.fields), ("flags", f.flags), ("offset", f.offset),
     ("mof", VBool(f.mof)), ("size", VInt(1)), ("hasextensions", f.hasextensions)]
  }

  /** The probe asks for one record and carries no cursor. */
  lemma SearchArgsProbe(scientificname: Value, f: SearchFilters)
    ensures DistinctKeys(SearchArgs(scientificname, f))
    ensures Get(SearchArgs(scientificname, f), "size") == Some(VInt(1))
    ensures Get(SearchArgs(scientificname, f), "after") == None
    ensures Get(SearchArgs(scientificname, f), "scientificname") == Some(scientificname)
    ensures Get(SearchArgs(scientificname, f), "taxonid") == Some(f.taxonid)
    ensures Get(SearchArgs(scientificname, f), "mof") == Some(VBool(f.mof))
  {
    var a := SearchArgs(scientificname, f);
    assert !HasKey(a, "after") by {
      forall i | 0 <= i < |a| ensures a[i].0 != "after" {
      }
    }
    GetAt(a, 14);
    GetAt(a, 3);
    GetAt(a, 0);
    GetAt(a, 13);
  }

  // ---------------------------------------------------------------------
  // The request plan.

  /** The number of passes of `for i in range(5000, target + 1, 5000)`. */
  function NumFullPages(target: int): (n: nat)
    ensures n * PageSize <= (if target < 0 then 0 else target) < (n + 1) * PageSize
  {
    if target < PageSize then 0 else target / PageSize
  }

  /** The size of the resolved fetch: the probe's total when size is None or
      0, otherwise size itself, with no clamping to the total. */
  function Target(size: Option<int>, probe: Body): (r: Result<int>)
    ensures size.Some? && size.value != 0 ==> r == Ok(size.value)
    ensures (size.None? || size.value == 0) ==>
      (r.Ok? <==> probe.total.Some?) && (r.Ok? ==> r.value == probe.total.value)
  {
    if size.None? || size.value == 0 then
      match probe.total
      case None => Err(KeyError("total"))
      case Some(t) => Ok(t)
    else Ok(size.value)
  }

  /** The state of the fetch: the shared args dictionary, the frame's
      columns and rows, the requests made so far, and the exception that
      ended it, if one did. */
  datatype Run = Run(args: Dict, columns: set<string>, rows: seq<Record>, log: seq<Request>, failure: Option<Error>)

  /** What a whole search leaves behind: its outcome, the args dictionary
      as the loop left it, and every request it made. */
  datatype Fetched = Fetched(outcome: Result<SearchResult>, args: Dict, log: seq<Request>)

  function LastId(rows: seq<Record>): string
    requires rows != []
  {
    rows[|rows| - 1].id
  }

  /** res["results"] of one obis_GET: the exception of the call, a KeyError
      when the body has no results, or the records. */
  function Page(transport: Transport, req: Request): Result<seq<Record>>
  {
    match JsonGet(transport, req)
    case Err(e) => Err(e)
    case Ok(b) => (match b.results case None => Err(KeyError("results")) case Some(rs) => Ok(rs))
  }

  /** The records a request gets back, when it gets some. */
  function PageRows(transport: Transport, req: Request): seq<Record> {
    match Page(transport, req)
    case Ok(rs) => rs
    case Err(_) => []
  }

  /** The records of a sequence of requests, concatenated in request order. */
  function ConcatPages(transport: Transport, reqs: seq<Request>): seq<Record> {
    if reqs == [] then []
    else ConcatPages(transport, reqs[..|reqs| - 1]) + PageRows(transport, reqs[|reqs| - 1])
  }

  /** One pass of the loop: size 5000, one GET, concatenation, and the
      cursor read from the last row of the accumulated frame. */
  function FullPageStep(transport: Transport, url: string, cache: bool, r: Run): Run {
    var args := Set(r.args, "size", VInt(PageSize));
    var req := Request(url, args, cache);
    var log := r.log + [req];
    match Page(transport, req)
    case Err(e) => Run(args, r.columns, r.rows, log, Some(e))
    case Ok(page) =>
      var rows := r.rows + page;
      var columns := r.columns + ColumnsOfAll(page);
      if rows == [] then
        Run(args, columns, rows, log, Some(if "id" in columns then IndexError else KeyError("id")))
      else Run(Set(args, "after", VStr(LastId(rows))), columns, rows, log, None)
  }

  /** n passes of step, stopping at the first state that records an
      exception: the shape of a loop whose body may raise. */
  function Repeat(step: Run -> Run, r: Run, n: nat): Run
    decreases n
  {
    if n == 0 || r.failure.Some? then r else Repeat(step, step(r), n - 1)
  }

  /** The state after n more passes of the loop, or at the pass that
      raised. */
  function FullPages(transport: Transport, url: string, cache: bool, r: Run, n: nat): Run {
    Repeat((r0: Run) => FullPageStep(transport, url, cache, r0), r, n)
  }

  /** The tail request of size target % 5000, sent whatever the remainder. */
  function TailStep(transport: Transport, url: string, cache: bool, r: Run, target: int): Run {
    var args := Set(r.args, "size", VInt(target % PageSize));
    var req := Request(url, args, cache);
    var log := r.log + [req];
    match Page(transport, req)
    case Err(e) => Run(args, r.columns, r.rows, log, Some(e))
    case Ok(page) => Run(args, r.columns + ColumnsOfAll(page), r.rows + page, log, None)
  }

  // ---------------------------------------------------------------------
  // The measurement-or-fact join.

  function Children(r: Record): seq<Child> {
    match r.mof
    case None => []
    case Some(cs) => cs
  }

  /** The flattened rows of one record's children, each tagged with id. */
  function FlatChildren(id: string, cs: seq<Child>): (fs: seq<Flat>)
    ensures |fs| == |cs|
    ensures forall i :: 0 <= i < |fs| ==> fs[i] == Flat(id, cs[i])
  {
    if cs == [] then [] else [Flat(id, cs[0])] + FlatChildren(id, cs[1..])
  }

  function FlatOf(r: Record): seq<Flat> {
    FlatChildren(r.id, Children(r))
  }

  /** json_normalize(records, "mof", ["id"]): one row per child, carrying
      its parent's id, in record order. */
  function Flatten(rows: seq<Record>): seq<Flat> {
    if rows == [] then [] else FlatOf(rows[0]) + Flatten(rows[1..])
  }

  /** The rows of the right frame that match one left row on "id". */
  function Matches(l: Record, right: seq<Flat>): seq<JoinedRow> {
    if right == [] then []
    else (if right[0].id == l.id then [JoinedRow(l, right[0].child)] else []) + Matches(l, right[1..])
  }

  /** pd.merge(left, right, on="id", how="inner"): left order, and for each
      left row its matches in right order. */
  function InnerJoin(left: seq<Record>, right: seq<Flat>): seq<JoinedRow> {
    if left == [] then [] else Matches(left[0], right) + InnerJoin(left[1..], right)
  }

  /** The measurement-or-fact result of search. json_normalize returns an
      empty frame without an "id" column for no rows, so the merge raises
      KeyError; it raises KeyError when the frame has no "mof" column. */
  function MofJoin(t: Table): (r: Result<SearchResult>)
    ensures r.Ok? <==> t.rows != [] && "mof" in t.columns
    ensures r.Ok? ==> r.value.Merged?
  {
    if t.rows == [] then Err(KeyError("id"))
    else if "mof" !in t.columns then Err(KeyError("mof"))
    else Ok(Merged(InnerJoin(t.rows, Flatten(t.rows))))
  }


  /** The pairs of one left row with each of a list of children. */
  function Pairs(l: Record, cs: seq<Child>): (ps: seq<JoinedRow>)
    ensures |ps| == |cs|
    ensures forall i :: 0 <= i < |ps| ==> ps[i] == JoinedRow(l, cs[i])
  {
    if cs == [] then [] else [JoinedRow(l, cs[0])] + Pairs(l, cs[1..])
  }

  /** Reference definition of a frame merged with its own flattened
      children: every row followed by its own children, rows in frame
      order. */
  function ParentJoin(rows: seq<Record>): seq<JoinedRow> {
    if rows == [] then [] else Pairs(rows[0], Children(rows[0])) + ParentJoin(rows[1..])
  }

  predicate DistinctIds(rows: seq<Record>) {
    forall i, j :: 0 <= i < j < |rows| ==> rows[i].id != rows[j].id
  }

  lemma {:induction false} MatchesAppend(l: Record, a: seq<Flat>, b: seq<Flat>)
    ensures Matches(l, a + b) == Matches(l, a) + Matches(l, b)
  {
    if a == [] {
      assert a + b == b;
    } else {
      assert (a + b)[1..] == a[1..] + b;
      MatchesAppend(l, a[1..], b);
    }
  }

  lemma {:induction false} MatchesChildren(l: Record, id: string, cs: seq<Child>)
    ensures Matches(l, FlatChildren(id, cs)) == if id == l.id then Pairs(l, cs) else []
  {
    if cs != [] {
      assert FlatChildren(id, cs)[1..] == FlatChildren(id, cs[1..]);
      MatchesChildren(l, id, cs[1..]);
    }
  }

  /** The children of every row of rows that has l's id, paired with l. */
  function PairsById(l: Record, rows: seq<Record>): seq<JoinedRow> {
    if rows == [] then []
    else (if rows[0].id == l.id then Pairs(l, Children(rows[0])) else []) + PairsById(l, rows[1..])
  }

  lemma {:induction false} MatchesFlatten(l: Record, rows: seq<Record>)
    ensures Matches(l, Flatten(rows)) == PairsById(l, rows)
  {
    if rows != [] {
      MatchesAppend(l, FlatOf(rows[0]), Flatten(rows[1..]));
      MatchesChildren(l, rows[0].id, Children(rows[0]));
      MatchesFlatten(l, rows[1..]);
    }
  }

  lemma {:induction false} PairsByOtherId(l: Record, rows: seq<Record>)
    requires forall i :: 0 <= i < |rows| ==> rows[i].id != l.id
    ensures PairsById(l, rows) == []
  {
    if rows != [] {
      PairsByOtherId(l, rows[1..]);
    }
  }

  lemma {:induction false} PairsByOwnId(l: Record, rows: seq<Record>)
    requires DistinctIds(rows) && l in rows
    ensures PairsById(l, rows) == Pairs(l, Children(l))
  {
    if rows[0] == l {
      PairsByOtherId(l, rows[1..]);
    } else {
      var j :| 0 <= j < |rows| && rows[j] == l;
      assert rows[0].id != l.id;
      assert l in rows[1..] by {
        assert rows[1..][j - 1] == l;
      }
      PairsByOwnId(l, rows[1..]);
    }
  }

  /** With unique ids, merging left rows of a frame with the frame's
      flattened children pairs each left row with its own children. */
  lemma {:induction false} JoinByParent(left: seq<Record>, rows: seq<Record>)
    requires DistinctIds(rows)
    requires forall i :: 0 <= i < |left| ==> left[i] in rows
    ensures InnerJoin(left, Flatten(rows)) == ParentJoin(left)
  {
    if left != [] {
      MatchesFlatten(left[0], rows);
      PairsByOwnId(left[0], rows);
      JoinByParent(left[1..], rows);
    }
  }

  lemma {:induction false} ParentJoinMembers(rows: seq<Record>, p: Record, c: Child)
    ensures JoinedRow(p, c) in ParentJoin(rows) <==> p in rows && c in Children(p)
  {
    if rows != [] {
      ParentJoinMembers(rows[1..], p, c);
      var ps := Pairs(rows[0], Children(rows[0]));
      if p == rows[0] && c in Children(p) {
        var i :| 0 <= i < |Children(p)| && Children(p)[i] == c;
        assert ps[i] == JoinedRow(p, c);
      }
      if JoinedRow(p, c) in ps {
        var i :| 0 <= i < |ps| && ps[i] == JoinedRow(p, c);
        assert Children(rows[0])[i] == c;
      }
    }
  }

  /** The merged frame of search when record ids are unique: each record
      followed by its own measurements or facts, in frame order, so a
      record without any contributes no row; (p, c) is a merged row
      exactly when p is a record of the frame and c one of its children. */
  lemma MofJoinRows(t: Table)
    requires t.rows != [] && "mof" in t.columns && DistinctIds(t.rows)
    ensures MofJoin(t) == Ok(Merged(ParentJoin(t.rows)))
    ensures forall p: Record, c: Child :: JoinedRow(p, c) in MofJoin(t).value.rows <==> p in t.rows && c in Children(p)
  {
    JoinByParent(t.rows, t.rows);
    forall p: Record, c: Child
      ensures JoinedRow(p, c) in ParentJoin(t.rows) <==> p in t.rows && c in Children(p)
    {
      ParentJoinMembers(t.rows, p, c);
    }
  }

  lemma {:induction false} MatchesSound(l: Record, right: seq<Flat>, jr: JoinedRow)
    requires jr in Matches(l, right)
    ensures jr.parent == l
    ensures exists f :: f in right && f.id == l.id && f.child == jr.child
  {
    if jr !in Matches(l, right[1..]) {
      assert right[0].id == l.id && jr == JoinedRow(l, right[0].child);
    } else {
      MatchesSound(l, right[1..], jr);
      var f :| f in right[1..] && f.id == l.id && f.child == jr.child;
      assert f in right;
    }
  }

  lemma {:induction false} FlattenSound(rows: seq<Record>, f: Flat)
    requires f in Flatten(rows)
    ensures exists q :: q in rows && q.id == f.id && f.child in Children(q)
  {
    if f in FlatOf(rows[0]) {
      var i :| 0 <= i < |FlatOf(rows[0])| && FlatOf(rows[0])[i] == f;
      assert Children(rows[0])[i] == f.child;
    } else {
      FlattenSound(rows[1..], f);
      var q :| q in rows[1..] && q.id == f.id && f.child in Children(q);
      assert q in rows;
    }
  }

  /** Whatever the ids: every merged row pairs a row of the left frame with
      a child of some record that has the same id. */
  lemma {:induction false} InnerJoinSound(left: seq<Record>, rows: seq<Record>, jr: JoinedRow)
    requires jr in InnerJoin(left, Flatten(rows))
    ensures jr.parent in left
    ensures exists q :: q in rows && q.id == jr.parent.id && jr.child in Children(q)
  {
    if jr in Matches(left[0], Flatten(rows)) {
      MatchesSound(left[0], Flatten(rows), jr);
      var f :| f in Flatten(rows) && f.id == left[0].id && f.child == jr.child;
      FlattenSound(rows, f);
    } else {
      InnerJoinSound(left[1..], rows, jr);
      assert jr.parent in left;
    }
  }

  // ---------------------------------------------------------------------
  // The whole of search after the arguments are built.

  function Finish(tail: Run, probe: Body, mof: bool): Result<SearchResult> {
    var table := Table(tail.columns, tail.rows);
    if mof then
      match probe.total
      case None => Err(KeyError("total"))
      case Some(t) => if t > 0 then MofJoin(table) else Ok(Frame(table))
    else Ok(Frame(table))
  }

  function ProbeRequest(url: string, args0: Dict, cache: bool): Request {
    Request(url, args0, cache)
  }

  /** Specification of the fetch in search, once its args are built: the
      probe, the full pages, the tail and the optional join, each exception
      ending the fetch. Every request goes with the caller's cache flag. */
  function SearchSpec(transport: Transport, url: string, cache: bool, args0: Dict, size: Option<int>, mof: bool): (f: Fetched)
    ensures |f.log| >= 1 && f.log[0] == ProbeRequest(url, args0, cache)
    ensures |f.log| == 1 ==> f.outcome.Err?
  {
    var req0 := ProbeRequest(url, args0, cache);
    match JsonGet(transport, req0)
    case Err(e) => Fetched(Err(e), args0, [req0])
    case Ok(probe) =>
      match Target(size, probe)
      case Err(e) => Fetched(Err(e), args0, [req0])
      case Ok(target) =>
        match probe.results
        case None => Fetched(Err(KeyError("results")), args0, [req0])
        case Some(probeRows) =>
          var start := Run(args0, ColumnsOfAll(probeRows), [], [req0], None);
          var full := FullPages(transport, url, cache, start, NumFullPages(target));
          FullPagesKeepFirst(transport, url, cache, start, NumFullPages(target));
          if full.failure.Some? then Fetched(Err(full.failure.value), full.args, full.log)
          else
            var tail := TailStep(transport, url, cache, full, target);
            if tail.failure.Some? then Fetched(Err(tail.failure.value), tail.args, tail.log)
            else Fetched(Finish(tail, probe, mof), tail.args, tail.log)
  }

  /** Passes of the loop only append to the log, so its first request
      stays first. */
  lemma FullPagesKeepFirst(transport: Transport, url: string, cache: bool, r: Run, n: nat)
    requires |r.log| >= 1
    ensures var full := FullPages(transport, url, cache, r, n);
      |full.log| >= 1 && full.log[0] == r.log[0]
  {
    var first := r.log[0];
    var step := (r0: Run) => FullPageStep(transport, url, cache, r0);
    var P := (r0: Run) => |r0.log| >= 1 && r0.log[0] == first;
    forall r0: Run | P(r0) ensures P(step(r0)) {
      assert step(r0).log == r0.log + [step(r0).log[|step(r0).log| - 1]];
    }
    RepeatInvariant(step, P, r, n);
  }

  /** Unfolding one pass of the loop. */
  lemma FirstPass(transport: Transport, url: string, cache: bool, r: Run, m: nat)
    requires m > 0 && r.failure.None?
    ensures FullPages(transport, url, cache, r, m) == FullPages(transport, url, cache, FullPageStep(transport, url, cache, r), m - 1)
    ensures FullPageStep(transport, url, cache, r).failure.Some? ==> FullPages(transport, url, cache, r, m) == FullPageStep(transport, url, cache, r)
  {
  }

  lemma RangeCount(i: int, k: nat, target: int)
    requires i == PageSize * (k + 1)
    requires k <= NumFullPages(target)
    ensures i <= target <==> k < NumFullPages(target)
  {
  }

  /** One pass of the loop body: "size" is set to 5000 in the shared args,
      one GET, the page's rows are concatenated to the frame, and "after" is
      set to the id of the frame's last row. */
  method FetchFullPage(transport: Transport, url: string, cache: bool, args0: Dict, columns0: set<string>, rows0: seq<Record>, log0: seq<Request>)
    returns (args: Dict, columns: set<string>, rows: seq<Record>, log: seq<Request>, failure: Option<Error>)
    ensures Run(args, columns, rows, log, failure) == FullPageStep(transport, url, cache, Run(args0, columns0, rows0, log0, None))
  {
    columns, rows := columns0, rows0;
    args := Set(args0, "size", VInt(PageSize));
    var req := Request(url, args, cache);
    log := log0 + [req];
    var res := JsonGet(transport, req);
    if res.Err? {
      return args, columns, rows, log, Some(res.error);
    }
    if res.value.results.None? {
      return args, columns, rows, log, Some(KeyError("results"));
    }
    var page := res.value.results.value;
    rows := rows + page;
    columns := columns + ColumnsOfAll(page);
    if rows == [] {
      return args, columns, rows, log, Some(if "id" in columns then IndexError else KeyError("id"));
    }
    args := Set(args, "after", VStr(rows[|rows| - 1].id));
    failure := None;
  }

  /** The loop over range(5000, target + 1, 5000); an exception stops it. */
  method FetchFullPages(transport: Transport, url: string, cache: bool, args0: Dict, columns0: set<string>, log0: seq<Request>, target: int)
    returns (args: Dict, columns: set<string>, rows: seq<Record>, log: seq<Request>, failure: Option<Error>)
    ensures Run(args, columns, rows, log, failure) == FullPages(transport, url, cache, Run(args0, columns0, [], log0, None), NumFullPages(target))
  {
    args, columns, rows, log := args0, columns0, [], log0;
    ghost var start := Run(args, columns, rows, log, None);
    ghost var n := NumFullPages(target);
    ghost var k: nat := 0;
    var i := PageSize;
    while i <= target
      invariant i == PageSize * (k + 1) && k <= n
      invariant FullPages(transport, url, cache, start, n) == FullPages(transport, url, cache, Run(args, columns, rows, log, None), n - k)
    {
      RangeCount(i, k, target);
      FirstPass(transport, url, cache, Run(args, columns, rows, log, None), n - k);
      args, columns, rows, log, failure := FetchFullPage(transport, url, cache, args, columns, rows, log);
      if failure.Some? {
        return;
      }
      i := i + PageSize;
      k := k + 1;
    }
    RangeCount(i, k, target);
    failure := None;
  }

  /** The fetch in search as the source runs it: the args dictionary is
      updated in place (size, after), the frame grows by concatenation, and
      an exception ends the fetch with the arguments as far as they got. */
  method FetchOccurrences(transport: Transport, url: string, cache: bool, args0: Dict, size: Option<int>, mof: bool)
    returns (outcome: Result<SearchResult>, args: Dict, log: seq<Request>)
    ensures Fetched(outcome, args, log) == SearchSpec(transport, url, cache, args0, size, mof)
  {
    args := args0;
    var probeReq := Request(url, args, cache);
    log := [probeReq];
    var out := JsonGet(transport, probeReq);
    if out.Err? {
      return Err(out.error), args, log;
    }
    var resolved := Target(size, out.value);
    if resolved.Err? {
      return Err(resolved.error), args, log;
    }
    var target := resolved.value;
    if out.value.results.None? {
      return Err(KeyError("results")), args, log;
    }
    var columns, rows, failure;
    args, columns, rows, log, failure := FetchFullPages(transport, url, cache, args, ColumnsOfAll(out.value.results.value), log, target);
    if failure.Some? {
      return Err(failure.value), args, log;
    }
    args := Set(args, "size", VInt(target % PageSize));
    var tailReq := Request(url, args, cache);
    log := log + [tailReq];
    var res := JsonGet(transport, tailReq);
    if res.Err? {
      return Err(res.error), args, log;
    }
    if res.value.results.None? {
      return Err(KeyError("results")), args, log;
    }
    rows := rows + res.value.results.value;
    columns := columns + ColumnsOfAll(res.value.results.value);
    var table := Table(columns, rows);
    if mof {
      if out.value.total.None? {
        return Err(KeyError("total")), args, log;
      }
      if out.value.total.value > 0 {
        if rows == [] {
          outcome := Err(KeyError("id"));
        } else if "mof" !in columns {
          outcome := Err(KeyError("mof"));
        } else {
          outcome := Ok(Merged(InnerJoin(rows, Flatten(rows))));
        }
        return;
      }
    }
    outcome := Ok(Frame(table));
  }

  // ---------------------------------------------------------------------
  // What the request plan promises.

  function Probe(transport: Transport, url: string, cache: bool, args0: Dict): Result<Body> {
    JsonGet(transport, ProbeRequest(url, args0, cache))
  }

  /** The "after" value the shared args hold once the given full-page
      requests are answered: the id of the last accumulated row, or the
      caller's own value while no row has arrived. */
  function Cursor(transport: Transport, args0: Dict, reqs: seq<Request>): Option<Value> {
    var rows := ConcatPages(transport, reqs);
    if rows == [] then Get(args0, "after") else Some(VStr(LastId(rows)))
  }

  /** Every key other than "size" and "after" holds what the caller gave. */
  ghost predicate SameFilters(p: Dict, args0: Dict) {
    forall k :: k != "size" && k != "after" ==> Get(p, k) == Get(args0, k)
  }

  /** Request m of the log goes to url with the caller's cache flag, asks for
      size records, carries the cursor the earlier pages left, and keeps the
      caller's filters. */
  ghost predicate PlannedRequest(transport: Transport, url: string, cache: bool, args0: Dict, log: seq<Request>, m: int, size: int)
    requires 1 <= m < |log|
  {
    log[m].url == url && log[m].cache == cache &&
    Get(log[m].params, "size") == Some(VInt(size)) &&
    Get(log[m].params, "after") == Cursor(transport, args0, log[1..m]) &&
    SameFilters(log[m].params, args0)
  }

  /** The first j + 1 requests of log are the probe and j full pages, and
      every full page left at least one row accumulated. */
  ghost predicate LogPlanned(transport: Transport, url: string, cache: bool, args0: Dict, log: seq<Request>, j: nat) {
    j < |log| && log[0] == ProbeRequest(url, args0, cache) &&
    (forall m :: 1 <= m <= j ==> PlannedRequest(transport, url, cache, args0, log, m, PageSize)) &&
    (forall i :: 1 < i <= j + 1 ==> ConcatPages(transport, log[1..i]) != [])
  }

  /** The frame and the shared args agree with the pages fetched so far. */
  ghost predicate StatePlanned(transport: Transport, args0: Dict, probeColumns: set<string>, r: Run) {
    |r.log| >= 1 &&
    r.rows == ConcatPages(transport, r.log[1..]) &&
    r.columns == probeColumns + ColumnsOfAll(r.rows) &&
    Get(r.args, "after") == Cursor(transport, args0, r.log[1..]) &&
    SameFilters(r.args, args0)
  }

  /** The state after j full pages that raised nothing. */
  ghost predicate Planned(transport: Transport, url: string, cache: bool, args0: Dict, probeColumns: set<string>, r: Run, j: nat) {
    r.failure.None? && |r.log| == j + 1 &&
    LogPlanned(transport, url, cache, args0, r.log, j) &&
    StatePlanned(transport, args0, probeColumns, r)
  }

  lemma WholeSlice<T>(s: seq<T>)
    requires |s| >= 1
    ensures s[1..|s|] == s[1..]
  {
  }

  lemma ConcatPagesSnoc(transport: Transport, reqs: seq<Request>, req: Request)
    ensures ConcatPages(transport, reqs + [req]) == ConcatPages(transport, reqs) + PageRows(transport, req)
  {
    assert (reqs + [req])[..|reqs + [req]| - 1] == reqs;
  }

  /** Appending a request keeps what the earlier requests were. */
  lemma LogSnoc(transport: Transport, url: string, cache: bool, args0: Dict, log: seq<Request>, req: Request, j: nat)
    requires LogPlanned(transport, url, cache, args0, log, j)
    ensures LogPlanned(transport, url, cache, args0, log + [req], j)
  {
    var log' := log + [req];
    forall m | 1 <= m <= j
      ensures PlannedRequest(transport, url, cache, args0, log', m, PageSize)
    {
      assert log'[1..m] == log[1..m];
      assert PlannedRequest(transport, url, cache, args0, log, m, PageSize);
    }
    forall i | 1 < i <= j + 1 ensures ConcatPages(transport, log'[1..i]) != [] {
      assert log'[1..i] == log[1..i];
    }
  }

  lemma LogStep(transport: Transport, url: string, cache: bool, args0: Dict, log: seq<Request>, j: nat)
    requires LogPlanned(transport, url, cache, args0, log, j) && j + 1 < |log|
    requires PlannedRequest(transport, url, cache, args0, log, j + 1, PageSize)
    requires ConcatPages(transport, log[1..j + 2]) != []
    ensures LogPlanned(transport, url, cache, args0, log, j + 1)
  {
  }

  /** A state's requests and the request sent from its args. */
  lemma NextRequest(transport: Transport, url: string, cache: bool, args0: Dict, pc: set<string>, r: Run, size: int)
    requires StatePlanned(transport, args0, pc, r)
    ensures var req := Request(url, Set(r.args, "size", VInt(size)), cache);
      var log := r.log + [req];
      PlannedRequest(transport, url, cache, args0, log, |r.log|, size) &&
      log[1..] == r.log[1..] + [req] &&
      ConcatPages(transport, log[1..]) == r.rows + PageRows(transport, req)
  {
    var args := Set(r.args, "size", VInt(size));
    var req := Request(url, args, cache);
    var log := r.log + [req];
    assert log[1..|r.log|] == r.log[1..];
    assert log[1..] == r.log[1..] + [req];
    ConcatPagesSnoc(transport, r.log[1..], req);
    GetSet(r.args, "size", VInt(size), "after");
    GetSet(r.args, "size", VInt(size), "size");
    SetFilters(r.args, args0, "size", VInt(size));
  }

  lemma SetFilters(p: Dict, args0: Dict, k: string, v: Value)
    requires SameFilters(p, args0)
    requires k == "size" || k == "after"
    ensures SameFilters(Set(p, k, v), args0)
  {
    forall k' | k' != "size" && k' != "after" ensures Get(Set(p, k, v), k') == Get(args0, k') {
      GetSet(p, k, v, k');
    }
  }

  /** A page that leaves the frame non-empty keeps the state in step with
      the log. */
  lemma AbsorbPage(transport: Transport, url: string, cache: bool, args0: Dict, pc: set<string>, r: Run, page: seq<Record>)
    requires StatePlanned(transport, args0, pc, r)
    requires PageRows(transport, Request(url, Set(r.args, "size", VInt(PageSize)), cache)) == page
    requires r.rows + page != []
    ensures var args := Set(r.args, "size", VInt(PageSize));
      var rows := r.rows + page;
      StatePlanned(transport, args0, pc,
        Run(Set(args, "after", VStr(LastId(rows))), r.columns + ColumnsOfAll(page), rows, r.log + [Request(url, args, cache)], None))
  {
    var args := Set(r.args, "size", VInt(PageSize));
    var rows := r.rows + page;
    NextRequest(transport, url, cache, args0, pc, r, PageSize);
    ColumnsOfAllAppend(r.rows, page);
    GetSet(args, "after", VStr(LastId(rows)), "after");
    SetFilters(r.args, args0, "size", VInt(PageSize));
    SetFilters(args, args0, "after", VStr(LastId(rows)));
  }

  lemma StepState(transport: Transport, url: string, cache: bool, args0: Dict, pc: set<string>, r: Run)
    requires StatePlanned(transport, args0, pc, r)
    requires FullPageStep(transport, url, cache, r).failure.None?
    ensures StatePlanned(transport, args0, pc, FullPageStep(transport, url, cache, r))
    ensures FullPageStep(transport, url, cache, r).log == r.log + [Request(url, Set(r.args, "size", VInt(PageSize)), cache)]
    ensures FullPageStep(transport, url, cache, r).rows != []
  {
    var req := Request(url, Set(r.args, "size", VInt(PageSize)), cache);
    var page := Page(transport, req).value;
    AbsorbPage(transport, url, cache, args0, pc, r, page);
  }

  lemma StepPlanned(transport: Transport, url: string, cache: bool, args0: Dict, pc: set<string>, r: Run, j: nat)
    requires Planned(transport, url, cache, args0, pc, r, j)
    requires FullPageStep(transport, url, cache, r).failure.None?
    ensures Planned(transport, url, cache, args0, pc, FullPageStep(transport, url, cache, r), j + 1)
  {
    var req := Request(url, Set(r.args, "size", VInt(PageSize)), cache);
    var r' := FullPageStep(transport, url, cache, r);
    StepState(transport, url, cache, args0, pc, r);
    NextRequest(transport, url, cache, args0, pc, r, PageSize);
    LogSnoc(transport, url, cache, args0, r.log, req, j);
    WholeSlice(r'.log);
    LogStep(transport, url, cache, args0, r'.log, j);
  }

  /** Induction over the passes of a loop: a property that holds of the
      start and that every pass which raises nothing preserves holds of the
      state the passes end in. */
  lemma {:induction false} RepeatInduction(step: Run -> Run, P: Run -> bool, r: Run, n: nat)
    requires P(r)
    requires forall r0: Run :: P(r0) && step(r0).failure.None? ==> P(step(r0))
    requires Repeat(step, r, n).failure.None?
    ensures P(Repeat(step, r, n))
    decreases n
  {
    if n > 0 {
      RepeatInduction(step, P, step(r), n - 1);
    }
  }

  /** A property that every pass preserves holds after any number of
      passes. */
  lemma {:induction false} RepeatInvariant(step: Run -> Run, P: Run -> bool, r: Run, n: nat)
    requires P(r)
    requires forall r0: Run :: P(r0) ==> P(step(r0))
    ensures P(Repeat(step, r, n))
    decreases n
  {
    if n > 0 && r.failure.None? {
      RepeatInvariant(step, P, step(r), n - 1);
    }
  }

  /** Each pass adds one request to the log. */
  lemma {:induction false} RepeatLog(step: Run -> Run, r: Run, n: nat)
    requires forall r0: Run :: step(r0).failure.None? ==> |step(r0).log| == |r0.log| + 1
    requires Repeat(step, r, n).failure.None?
    ensures |Repeat(step, r, n).log| == |r.log| + n
    decreases n
  {
    if n > 0 {
      RepeatLog(step, step(r), n - 1);
    }
  }

  /** The plan with its page count read off the log. */
  ghost predicate PlannedSoFar(transport: Transport, url: string, cache: bool, args0: Dict, pc: set<string>, r: Run) {
    |r.log| >= 1 && Planned(transport, url, cache, args0, pc, r, |r.log| - 1)
  }

  lemma PassPlanned(transport: Transport, url: string, cache: bool, args0: Dict, pc: set<string>, r: Run)
    requires PlannedSoFar(transport, url, cache, args0, pc, r)
    requires FullPageStep(transport, url, cache, r).failure.None?
    ensures PlannedSoFar(transport, url, cache, args0, pc, FullPageStep(transport, url, cache, r))
  {
    var j := |r.log| - 1;
    StepPlanned(transport, url, cache, args0, pc, r, j);
    PlannedCount(transport, url, cache, args0, pc, FullPageStep(transport, url, cache, r), j + 1, |FullPageStep(transport, url, cache, r).log| - 1);
  }

  lemma PlannedCount(transport: Transport, url: string, cache: bool, args0: Dict, pc: set<string>, r: Run, j: nat, k: nat)
    requires Planned(transport, url, cache, args0, pc, r, j) && j == k
    ensures Planned(transport, url, cache, args0, pc, r, k)
  {
  }

  /** The passes of the loop: each pass that raises nothing extends the
      plan by one full page. */
  lemma PagesPlanned(transport: Transport, url: string, cache: bool, args0: Dict, pc: set<string>, r: Run, j: nat, n: nat)
    requires Planned(transport, url, cache, args0, pc, r, j)
    requires FullPages(transport, url, cache, r, n).failure.None?
    ensures Planned(transport, url, cache, args0, pc, FullPages(transport, url, cache, r, n), j + n)
  {
    var step := (r0: Run) => FullPageStep(transport, url, cache, r0);
    var P := (r0: Run) => PlannedSoFar(transport, url, cache, args0, pc, r0);
    forall r0: Run | P(r0) && step(r0).failure.None?
      ensures P(step(r0))
    {
      PassPlanned(transport, url, cache, args0, pc, r0);
    }
    RepeatInduction(step, P, r, n);
    forall r0: Run | step(r0).failure.None?
      ensures |step(r0).log| == |r0.log| + 1
    {
      assert step(r0).log == r0.log + [Request(url, Set(r0.args, "size", VInt(PageSize)), cache)];
    }
    RepeatLog(step, r, n);
    PlannedCount(transport, url, cache, args0, pc, FullPages(transport, url, cache, r, n), |FullPages(transport, url, cache, r, n).log| - 1, j + n);
  }

  /** The state after the tail request, when nothing raised. */
  ghost predicate TailPlanned(transport: Transport, url: string, cache: bool, args0: Dict, pc: set<string>, r: Run, j: nat, target: int) {
    r.failure.None? && |r.log| == j + 2 &&
    LogPlanned(transport, url, cache, args0, r.log, j) &&
    PlannedRequest(transport, url, cache, args0, r.log, j + 1, target % PageSize) &&
    r.rows == ConcatPages(transport, r.log[1..]) &&
    r.columns == pc + ColumnsOfAll(r.rows) &&
    r.args == r.log[j + 1].params
  }

  lemma TailIsPlanned(transport: Transport, url: string, cache: bool, args0: Dict, pc: set<string>, r: Run, j: nat, target: int)
    requires Planned(transport, url, cache, args0, pc, r, j)
    requires TailStep(transport, url, cache, r, target).failure.None?
    ensures TailPlanned(transport, url, cache, args0, pc, TailStep(transport, url, cache, r, target), j, target)
  {
    var args := Set(r.args, "size", VInt(target % PageSize));
    var req := Request(url, args, cache);
    NextRequest(transport, url, cache, args0, pc, r, target % PageSize);
    LogSnoc(transport, url, cache, args0, r.log, req, j);
    assert Page(transport, req).Ok?;
    var page := Page(transport, req).value;
    assert TailStep(transport, url, cache, r, target) == Run(args, r.columns + ColumnsOfAll(page), r.rows + page, r.log + [req], None);
    ColumnsOfAllAppend(r.rows, page);
  }

  /** A search that raised nothing went through the probe, the full pages
      and the tail: the shape of its state at the end. */
  lemma SearchShape(transport: Transport, url: string, cache: bool, args0: Dict, size: Option<int>, mof: bool)
    returns (probe: Body, target: int, tail: Run)
    requires SearchSpec(transport, url, cache, args0, size, mof).outcome.Ok?
    ensures Probe(transport, url, cache, args0) == Ok(probe) && probe.results.Some?
    ensures Target(size, probe) == Ok(target)
    ensures TailPlanned(transport, url, cache, args0, ColumnsOfAll(probe.results.value), tail, NumFullPages(target), target)
    ensures SearchSpec(transport, url, cache, args0, size, mof) == Fetched(Finish(tail, probe, mof), tail.args, tail.log)
  {
    probe := Probe(transport, url, cache, args0).value;
    target := Target(size, probe).value;
    var pc := ColumnsOfAll(probe.results.value);
    var start := Run(args0, pc, [], [ProbeRequest(url, args0, cache)], None);
    assert Planned(transport, url, cache, args0, pc, start, 0) by {
      assert start.log[1..] == [];
    }
    var full := FullPages(transport, url, cache, start, NumFullPages(target));
    PagesPlanned(transport, url, cache, args0, pc, start, 0, NumFullPages(target));
    tail := TailStep(transport, url, cache, full, target);
    TailIsPlanned(transport, url, cache, args0, pc, full, NumFullPages(target), target);
  }

  /** The request plan of a search that raised nothing: the probe, then
      NumFullPages(target) requests of size 5000 (target div 5000, or none
      when target is negative), then one tail request of size target mod
      5000, even when that is 0; all to the same url with the
      caller's cache flag and filters. */
  lemma SearchPlan(transport: Transport, url: string, cache: bool, args0: Dict, size: Option<int>, mof: bool)
    requires SearchSpec(transport, url, cache, args0, size, mof).outcome.Ok?
    ensures var f := SearchSpec(transport, url, cache, args0, size, mof);
      Probe(transport, url, cache, args0).Ok? && Target(size, Probe(transport, url, cache, args0).value).Ok? &&
      var target := Target(size, Probe(transport, url, cache, args0).value).value;
      var n := NumFullPages(target);
      |f.log| == n + 2 &&
      f.log[0] == Request(url, args0, cache) &&
      (forall m :: 1 <= m < |f.log| ==> f.log[m].url == url && f.log[m].cache == cache && SameFilters(f.log[m].params, args0)) &&
      (forall m :: 1 <= m <= n ==> Get(f.log[m].params, "size") == Some(VInt(PageSize))) &&
      Get(f.log[n + 1].params, "size") == Some(VInt(target % PageSize))
  {
    var probe, target, tail := SearchShape(transport, url, cache, args0, size, mof);
    var n := NumFullPages(target);
    forall m | 1 <= m < |tail.log|
      ensures tail.log[m].url == url && tail.log[m].cache == cache && SameFilters(tail.log[m].params, args0)
      ensures m <= n ==> Get(tail.log[m].params, "size") == Some(VInt(PageSize))
    {
      if m <= n {
        assert PlannedRequest(transport, url, cache, args0, tail.log, m, PageSize);
      } else {
        assert m == n + 1;
        assert PlannedRequest(transport, url, cache, args0, tail.log, m, target % PageSize);
      }
    }
  }

  /** Cursor threading: the first request after the probe carries the
      caller's "after" (search sets none); every later one, the tail
      included, carries the id of the last row accumulated before it, and
      there is always such a row. The args left behind are those of the
      tail request. */
  lemma SearchCursors(transport: Transport, url: string, cache: bool, args0: Dict, size: Option<int>, mof: bool)
    requires SearchSpec(transport, url, cache, args0, size, mof).outcome.Ok?
    ensures var f := SearchSpec(transport, url, cache, args0, size, mof);
      |f.log| >= 2 &&
      Get(f.log[1].params, "after") == Get(args0, "after") &&
      (forall m :: 2 <= m < |f.log| ==>
        ConcatPages(transport, f.log[1..m]) != [] &&
        Get(f.log[m].params, "after") == Some(VStr(LastId(ConcatPages(transport, f.log[1..m]))))) &&
      f.args == f.log[|f.log| - 1].params
  {
    var probe, target, tail := SearchShape(transport, url, cache, args0, size, mof);
    var n := NumFullPages(target);
    assert PlannedRequest(transport, url, cache, args0, tail.log, n + 1, target % PageSize);
    if n > 0 {
      assert PlannedRequest(transport, url, cache, args0, tail.log, 1, PageSize);
    }
    assert tail.log[1..1] == [];
    forall m | 2 <= m < |tail.log|
      ensures ConcatPages(transport, tail.log[1..m]) != []
      ensures Get(tail.log[m].params, "after") == Some(VStr(LastId(ConcatPages(transport, tail.log[1..m]))))
    {
      if m <= n {
        assert PlannedRequest(transport, url, cache, args0, tail.log, m, PageSize);
      } else {
        assert m == n + 1;
        assert PlannedRequest(transport, url, cache, args0, tail.log, m, target % PageSize);
      }
    }
  }

  /** The frame of a search that raised nothing holds the rows of every
      request after the probe, in request order, with the probe's columns
      added to theirs; it is merged with its measurements or facts exactly
      when mof was asked for and the probe reported records. */
  lemma SearchOutcome(transport: Transport, url: string, cache: bool, args0: Dict, size: Option<int>, mof: bool)
    requires SearchSpec(transport, url, cache, args0, size, mof).outcome.Ok?
    ensures var f := SearchSpec(transport, url, cache, args0, size, mof);
      Probe(transport, url, cache, args0).Ok? && Probe(transport, url, cache, args0).value.results.Some? &&
      var probe := Probe(transport, url, cache, args0).value;
      var rows := ConcatPages(transport, f.log[1..]);
      var t := Table(ColumnsOfAll(probe.results.value) + ColumnsOfAll(rows), rows);
      (mof ==> probe.total.Some?) &&
      f.outcome == if mof && probe.total.value > 0 then MofJoin(t) else Ok(Frame(t))
  {
    var probe, target, tail := SearchShape(transport, url, cache, args0, size, mof);
  }

  /** A first full page that comes back empty ends the search when the
      cursor is read: IndexError when the probe returned a record, whose
      columns include "id", and KeyError("id") when it returned none. */
  lemma EmptyFirstPage(transport: Transport, url: string, cache: bool, args0: Dict, size: Option<int>, mof: bool)
    requires Probe(transport, url, cache, args0).Ok? && Probe(transport, url, cache, args0).value.results.Some?
    requires Target(size, Probe(transport, url, cache, args0).value).Ok?
    requires Target(size, Probe(transport, url, cache, args0).value).value >= PageSize
    requires Page(transport, Request(url, Set(args0, "size", VInt(PageSize)), cache)) == Ok([])
    ensures var f := SearchSpec(transport, url, cache, args0, size, mof);
      var probeRows := Probe(transport, url, cache, args0).value.results.value;
      |f.log| == 2 && f.outcome == Err(if probeRows != [] then IndexError else KeyError("id"))
  {
    var probe := Probe(transport, url, cache, args0).value;
    var target := Target(size, probe).value;
    var start := Run(args0, ColumnsOfAll(probe.results.value), [], [ProbeRequest(url, args0, cache)], None);
    FirstPass(transport, url, cache, start, NumFullPages(target));
  }

  /** The size a request asks for, or -1 when it names none. */
  function RequestedSize(req: Request): int {
    match Get(req.params, "size")
    case Some(VInt(s)) => s
    case _ => -1
  }

  /** A server that answers every request for s >= 0 records with exactly
      s of them. */
  ghost predicate HonoursSize(transport: Transport) {
    forall req {:trigger RequestedSize(req)} :: RequestedSize(req) >= 0 ==> Page(transport, req).Ok? && |Page(transport, req).value| == RequestedSize(req)
  }

  lemma HonouredStep(transport: Transport, url: string, cache: bool, r: Run)
    requires HonoursSize(transport)
    ensures var r' := FullPageStep(transport, url, cache, r);
      r'.failure.None? && |r'.rows| == |r.rows| + PageSize && |r'.log| == |r.log| + 1
  {
    var req := Request(url, Set(r.args, "size", VInt(PageSize)), cache);
    GetSet(r.args, "size", VInt(PageSize), "size");
    assert RequestedSize(req) == PageSize;
  }

  /** The frame holds 5000 rows per full page sent so far. */
  predicate PagedRows(r: Run) {
    r.failure.None? && |r.rows| == PageSize * (|r.log| - 1)
  }

  lemma HonouredPages(transport: Transport, url: string, cache: bool, r: Run, n: nat)
    requires HonoursSize(transport)
    requires PagedRows(r)
    ensures var r' := FullPages(transport, url, cache, r, n);
      PagedRows(r') && |r'.log| == |r.log| + n
  {
    var step := (r0: Run) => FullPageStep(transport, url, cache, r0);
    var P := (r0: Run) => PagedRows(r0);
    forall r0: Run | P(r0) ensures P(step(r0)) {
      HonouredStep(transport, url, cache, r0);
    }
    RepeatInvariant(step, P, r, n);
    forall r0: Run | step(r0).failure.None?
      ensures |step(r0).log| == |r0.log| + 1
    {
      HonouredStep(transport, url, cache, r0);
    }
    RepeatLog(step, r, n);
  }

  lemma HonouredTail(transport: Transport, url: string, cache: bool, r: Run, target: int)
    requires HonoursSize(transport) && target >= 0
    ensures var r' := TailStep(transport, url, cache, r, target);
      r'.failure.None? && |r'.rows| == |r.rows| + target % PageSize
  {
    var req := Request(url, Set(r.args, "size", VInt(target % PageSize)), cache);
    GetSet(r.args, "size", VInt(target % PageSize), "size");
    assert RequestedSize(req) == target % PageSize;
  }

  /** Against a server that honours every size, a search for size > 0
      records without the join returns exactly size rows, as many as were
      asked for. */
  lemma SearchHonoursSize(transport: Transport, url: string, cache: bool, args0: Dict, size: int)
    requires HonoursSize(transport)
    requires Get(args0, "size") == Some(VInt(1))
    requires size > 0
    ensures var f := SearchSpec(transport, url, cache, args0, Some(size), false);
      f.outcome.Ok? && f.outcome.value.Frame? && |f.outcome.value.table.rows| == size
  {
    HonouredFetch(transport, url, cache, args0, size);
    SearchUnfold(transport, url, cache, args0, Some(size), false);
  }

  /** The probe, the full pages and the tail of a search for size > 0
      records all succeed, and together they bring size rows. */
  lemma HonouredFetch(transport: Transport, url: string, cache: bool, args0: Dict, size: int)
    requires HonoursSize(transport)
    requires Get(args0, "size") == Some(VInt(1))
    requires size > 0
    ensures var req0 := ProbeRequest(url, args0, cache);
      JsonGet(transport, req0).Ok? && JsonGet(transport, req0).value.results.Some? &&
      var probe := JsonGet(transport, req0).value;
      var start := Run(args0, ColumnsOfAll(probe.results.value), [], [req0], None);
      var full := FullPages(transport, url, cache, start, NumFullPages(size));
      var tail := TailStep(transport, url, cache, full, size);
      full.failure.None? && tail.failure.None? && |tail.rows| == size
  {
    var req0 := ProbeRequest(url, args0, cache);
    assert RequestedSize(req0) == 1;
    var probe := JsonGet(transport, req0).value;
    var start := Run(args0, ColumnsOfAll(probe.results.value), [], [req0], None);
    var n := NumFullPages(size);
    HonouredPages(transport, url, cache, start, n);
    var full := FullPages(transport, url, cache, start, n);
    HonouredTail(transport, url, cache, full, size);
    TailRemainder(size, n);
  }

  /** The tail's size is what the full pages leave of the target. */
  lemma TailRemainder(target: int, n: nat)
    requires n * PageSize <= target < (n + 1) * PageSize
    ensures PageSize * n + target % PageSize == target
  {
  }

  /** SearchSpec when the probe, the full pages and the tail all succeed. */
  lemma SearchUnfold(transport: Transport, url: string, cache: bool, args0: Dict, size: Option<int>, mof: bool)
    requires JsonGet(transport, ProbeRequest(url, args0, cache)).Ok?
    requires var probe := JsonGet(transport, ProbeRequest(url, args0, cache)).value;
      Target(size, probe).Ok? && probe.results.Some?
    ensures var req0 := ProbeRequest(url, args0, cache);
      var probe := JsonGet(transport, req0).value;
      var start := Run(args0, ColumnsOfAll(probe.results.value), [], [req0], None);
      var full := FullPages(transport, url, cache, start, NumFullPages(Target(size, probe).value));
      var tail := TailStep(transport, url, cache, full, Target(size, probe).value);
      full.failure.None? && tail.failure.None? ==>
      SearchSpec(transport, url, cache, args0, size, mof) == Fetched(Finish(tail, probe, mof), tail.args, tail.log)
  {
  }

  // ---------------------------------------------------------------------
  // The other endpoints: each sets the shared url and args and makes one
  // GET.

  /** The filters of grid, getpoints, point, tile and centroid. */
  datatype AreaFilters = AreaFilters(
    taxonid: Value, datasetid: Value, nodeid: Value, startdate: Value, enddate: Value,
    startdepth: Value, enddepth: Value, geometry: Value, redlist: Value, hab: Value,
    wrims: Value, event: Value, flags: Value, exclude: Value)

  /** The args dictionary of those endpoints, in its insertion order. */
  function AreaArgs(scientificname: Value, f: AreaFilters): (d: Dict)
    ensures |d| == 15 && d[0] == ("scientificname", scientificname)
  {
    [("scientificname", scientificname), ("taxonid", f.taxonid), ("datasetid", f.datasetid),
     ("nodeid", f.nodeid), ("startdate", f.startdate), ("enddate", f.enddate),
     ("startdepth", f.startdepth), ("enddepth", f.enddepth), ("geometry", f.geometry),
     ("redlist", f.redlist), ("hab", f.hab), ("wrims", f.wrims), ("event", f.event),
     ("flags", f.flags), ("exclude", f.exclude)]
  }

  /** The endpoints' arguments form a dictionary, carry the name as given
      and ask for neither a page size nor a cursor. */
  lemma AreaArgsKeys(scientificname: Value, f: AreaFilters)
    ensures DistinctKeys(AreaArgs(scientificname, f))
    ensures Get(AreaArgs(scientificname, f), "scientificname") == Some(scientificname)
    ensures !HasKey(AreaArgs(scientificname, f), "size") && !HasKey(AreaArgs(scientificname, f), "after")
  {
    var a := AreaArgs(scientificname, f);
    assert !HasKey(a, "size") && !HasKey(a, "after") by {
      forall i | 0 <= i < |a| ensures a[i].0 != "size" && a[i].0 != "after" {
      }
    }
  }

  /** What an endpoint returns: the parsed JSON body, or the raw content of
      a KML or vector-tile response. */
  datatype Reply = JsonReply(body: Body) | RawReply(content: seq<byte>)

  function AsJson(r: Result<Body>): (out: Result<Reply>)
    ensures out.Ok? <==> r.Ok?
    ensures out.Ok? ==> out.value == JsonReply(r.value)
    ensures out.Err? ==> out.error == r.error
  {
    match r
    case Ok(b) => Ok(JsonReply(b))
    case Err(e) => Err(e)
  }

  /** requests.get outside the caching session, raise_for_status, the
      content-type guard when one is named, and the raw content. */
  function RawGet(transport: Transport, req: Request, ctype: Option<string>): (r: Result<Reply>)
    ensures r.Ok? <==> !IsErrorStatus(transport(req).status) && (ctype.Some? ==> transport(req).contentType == ctype)
    ensures r.Ok? ==> r == Ok(RawReply(transport(req).content))
    ensures IsErrorStatus(transport(req).status) ==> r == Err(HTTPError(transport(req).status))
  {
    var resp := transport(req);
    match RaiseForStatus(resp)
    case Err(e) => Err(e)
    case Ok(_) =>
      if ctype.None? then Ok(RawReply(resp.content))
      else
        match CheckContentType(resp, ctype.value)
        case Err(e) => Err(e)
        case Ok(_) => Ok(RawReply(resp.content))
  }

  /** The cache flag obis_GET uses: the caller's cache keyword, or its
      default True when none is passed. */
  function CacheFlag(kw: Option<bool>): (c: bool)
    ensures c <==> kw.None? || kw.value
  {
    if kw.Some? then kw.value else true
  }

  /** A plain requests.get that is also handed the caller's keyword
      arguments: a cache keyword is one it does not accept, so it raises
      TypeError before anything is sent; otherwise it is RawGet. */
  function PlainGet(transport: Transport, req: Request, ctype: Option<string>, cache: Option<bool>): (r: Result<Reply>)
    ensures cache.Some? ==> r == Err(TypeError)
    ensures cache.None? ==> r == RawGet(transport, req, ctype)
  {
    if cache.Some? then Err(TypeError) else RawGet(transport, req, ctype)
  }

  function GetUrl(id: Value): string {
    BaseUrl + "occurrence/" + Str(id)
  }

  const GridPrefix: string := BaseUrl + "occurrence/grid/"

  /** The grid URL; "/kml" is appended when geojson is falsy. */
  function GridUrl(precision: int, geojson: Value): string {
    GridPrefix + IntStr(precision) + (if Truthy(geojson) then "" else "/kml")
  }

  /** The grid URL names the precision, which reads back as an int, and
      ends in "/kml" exactly when GeoJSON was not asked for. */
  lemma GridUrlRoundTrip(precision: int, geojson: Value)
    ensures var u := GridUrl(precision, geojson);
      |u| > |GridPrefix| && u[..|GridPrefix|] == GridPrefix &&
      var rest := u[|GridPrefix|..];
      (Truthy(geojson) ==> ParseInt(rest) == precision) &&
      (!Truthy(geojson) ==> |rest| > 4 && rest[|rest| - 4..] == "/kml" && ParseInt(rest[..|rest| - 4]) == precision)
  {
    var u := GridUrl(precision, geojson);
    var p := IntStr(precision);
    assert p == Str(VInt(precision));
    IntStrRoundTrip(precision);
    if Truthy(geojson) {
      assert u[|GridPrefix|..] == p;
    } else {
      assert u[|GridPrefix|..] == p + "/kml";
      assert (p + "/kml")[..|p|] == p;
    }
  }

  /** One path segment of a URL: str() of the value. */
  predicate Segment(s: string) {
    '/' !in s
  }

  const PointPrefix: string := BaseUrl + "occurrence/point/"
  const TilePrefix: string := BaseUrl + "occurrence/tile/"

  /** The point URL: x, y, and z when z is truthy, else nothing. */
  function PointUrl(x: Value, y: Value, z: Value): string {
    PointPrefix + Str(x) + "/" + Str(y) + "/" + (if Truthy(z) then Str(z) else "")
  }

  /** The tile URL: x, y and z, with ".mvt" when mvt is truthy. */
  function TileUrl(x: Value, y: Value, z: Value, mvt: Value): string {
    TilePrefix + Str(x) + "/" + Str(y) + "/" + Str(z) + (if Truthy(mvt) then ".mvt" else "")
  }

  /** A path of three segments after a prefix splits back into them. */
  lemma {:induction false} PathSplit(prefix: string, a: string, b: string, c: string)
    requires Segment(a) && Segment(b) && Segment(c)
    ensures var u := prefix + a + "/" + b + "/" + c;
      |u| >= |prefix| && u[..|prefix|] == prefix && Split(u[|prefix|..], '/') == [a, b, c]
  {
    var parts := [a, b, c];
    assert parts[1..] == [b, c] && [b, c][1..] == [c];
    assert Join([b, c], '/') == b + "/" + c;
    assert Join(parts, '/') == a + "/" + b + "/" + c;
    var u := prefix + a + "/" + b + "/" + c;
    assert u == prefix + Join(parts, '/');
    assert u[|prefix|..] == Join(parts, '/');
    SplitJoin(parts, '/');
  }

  /** The path after the point prefix splits back into x, y and z (empty
      for a falsy z), when none of them contains a "/". */
  lemma PointUrlSegments(x: Value, y: Value, z: Value)
    requires Segment(Str(x)) && Segment(Str(y)) && Segment(Str(z))
    ensures var u := PointUrl(x, y, z);
      |u| >= |PointPrefix| && u[..|PointPrefix|] == PointPrefix &&
      Split(u[|PointPrefix|..], '/') == [Str(x), Str(y), if Truthy(z) then Str(z) else ""]
  {
    PathSplit(PointPrefix, Str(x), Str(y), if Truthy(z) then Str(z) else "");
  }

  /** The path after the tile prefix splits back into x, y and z, the last
      with ".mvt" appended when a vector tile was asked for. */
  lemma TileUrlSegments(x: Value, y: Value, z: Value, mvt: Value)
    requires Segment(Str(x)) && Segment(Str(y)) && Segment(Str(z))
    ensures var u := TileUrl(x, y, z, mvt);
      |u| >= |TilePrefix| && u[..|TilePrefix|] == TilePrefix &&
      Split(u[|TilePrefix|..], '/') == [Str(x), Str(y), Str(z) + if Truthy(mvt) then ".mvt" else ""]
  {
    var ext := if Truthy(mvt) then ".mvt" else "";
    assert Segment(Str(z) + ext) by {
      assert '/' !in ext;
    }
    assert TileUrl(x, y, z, mvt) == TilePrefix + Str(x) + "/" + Str(y) + "/" + (Str(z) + ext);
    PathSplit(TilePrefix, Str(x), Str(y), Str(z) + ext);
  }

  // ---------------------------------------------------------------------
  // get_mapper_url

  /** The args after the taxon lookup of get_mapper_url: when "taxonid" is
      falsy and "scientificname" truthy, "taxonid" becomes the id of the
      lookup's best match; a missing key raises KeyError, and "taxonid" is
      read first and decides whether "scientificname" is read at all. */
  function MapperArgs(args: Dict, lookup: Value -> Result<Value>): (r: Result<Dict>)
    ensures !HasKey(args, "taxonid") ==> r == Err(KeyError("taxonid"))
    ensures r.Err? && r.error != KeyError("taxonid") ==>
      (!HasKey(args, "scientificname") && r.error == KeyError("scientificname")) ||
      (HasKey(args, "scientificname") && lookup(Get(args, "scientificname").value) == Err(r.error))
    ensures r.Err? ==> !HasKey(args, "taxonid") || !Truthy(Get(args, "taxonid").value)
  {
    match Get(args, "taxonid")
    case None => Err(KeyError("taxonid"))
    case Some(t) =>
      if Truthy(t) then Ok(args)
      else
        match Get(args, "scientificname")
        case None => Err(KeyError("scientificname"))
        case Some(n) =>
          if !Truthy(n) then Ok(args)
          else
            match lookup(n)
            case Err(e) => Err(e)
            case Ok(id) => Ok(Set(args, "taxonid", id))
  }

  /** The lookup only ever fills in "taxonid": every other entry is kept,
      and "taxonid" is the lookup's answer exactly when it was falsy and a
      truthy name was there to look up. */
  lemma MapperArgsChanges(args: Dict, lookup: Value -> Result<Value>, k: string)
    requires MapperArgs(args, lookup).Ok?
    ensures k != "taxonid" ==> Get(MapperArgs(args, lookup).value, k) == Get(args, k)
    ensures var t := Get(args, "taxonid").value;
      Get(MapperArgs(args, lookup).value, "taxonid") ==
        if !Truthy(t) && Truthy(Get(args, "scientificname").value) then Some(lookup(Get(args, "scientificname").value).value)
        else Some(t)
  {
    var t := Get(args, "taxonid").value;
    if !Truthy(t) && Truthy(Get(args, "scientificname").value) {
      var id := lookup(Get(args, "scientificname").value).value;
      GetSet(args, "taxonid", id, k);
      GetSet(args, "taxonid", id, "taxonid");
    }
  }

  /** A second call changes nothing more once the lookup answered with a
      truthy id (or none was needed), so the mapper URL is stable. */
  lemma MapperArgsIdempotent(args: Dict, lookup: Value -> Result<Value>)
    requires MapperArgs(args, lookup).Ok?
    requires Truthy(Get(MapperArgs(args, lookup).value, "taxonid").value) || !Truthy(Get(args, "scientificname").value) || Truthy(Get(args, "taxonid").value)
    ensures MapperArgs(MapperArgs(args, lookup).value, lookup) == MapperArgs(args, lookup)
  {
    var t := Get(args, "taxonid").value;
    if !Truthy(t) && Truthy(Get(args, "scientificname").value) {
      var id := lookup(Get(args, "scientificname").value).value;
      GetSet(args, "taxonid", id, "taxonid");
    }
  }

  /** The query string of the mapper URL: every non-None entry of the
      args, rendered as str() renders it, in insertion order. */
  lemma MapperUrlQuery(args: Dict)
    ensures var u := BuildApiUrl(MapperBase, args);
      u[..|MapperBase| + 1] == MapperBase + "?" && ParseQuery(u[|MapperBase| + 1..]) == Rendered(NonNone(args))
  {
    BuildApiUrlQuery(MapperBase, args);
  }

  // ---------------------------------------------------------------------
  // OccQuery

  class OccQuery {
    /** The url and args of the last query, shared by every query object. */
    const shared: QueryState
    /** Whether get_mapper_url builds a URL; unset until a query runs. */
    var mapper: Option<bool>

    constructor (shared: QueryState)
      ensures this.shared == shared && mapper == None
    {
      this.shared := shared;
      mapper := None;
    }

    /** search: the args dictionary is the shared one, so the size and
        cursor the fetch writes into it are what the shared args hold
        afterwards, whatever the outcome. cache is the caller's cache
        keyword (True when none is passed), which reaches every obis_GET. */
    method Search(transport: Transport, scientificname: StrArg, f: SearchFilters, size: Option<int>, cache: bool)
      returns (outcome: Result<SearchResult>)
      modifies this, shared
      ensures mapper == Some(true)
      ensures shared.url == BaseUrl + "occurrence"
      ensures var spec := SearchSpec(transport, BaseUrl + "occurrence", cache, SearchArgs(HandleArrStr(scientificname), f), size, f.mof);
        outcome == spec.outcome && shared.args == spec.args
    {
      shared.url := BaseUrl + "occurrence";
      var args := SearchArgs(HandleArrStr(scientificname), f);
      shared.args := args;
      mapper := Some(true);
      var log;
      outcome, args, log := FetchOccurrences(transport, shared.url, cache, args, size, f.mof);
      shared.args := args;
    }

    method Get(transport: Transport, id: Value, cache: bool) returns (out: Result<Body>)
      modifies this, shared
      ensures mapper == Some(false) && shared.url == GetUrl(id) && shared.args == []
      ensures out == JsonGet(transport, Request(GetUrl(id), [], cache))
    {
      shared.url := GetUrl(id);
      shared.args := [];
      mapper := Some(false);
      out := JsonGet(transport, Request(shared.url, shared.args, cache));
    }

    /** grid: the name is passed as given, without normalisation; KML goes
        through a plain GET whose content type must be XML. cache is the
        caller's cache keyword, if one is passed: obis_GET takes it, the plain
        GET rejects it. */
    method Grid(transport: Transport, precision: int, geojson: Value, scientificname: Value, f: AreaFilters, cache: Option<bool>)
      returns (out: Result<Reply>)
      modifies this, shared
      ensures mapper == Some(false)
      ensures shared.url == GridUrl(precision, geojson) && shared.args == AreaArgs(scientificname, f)
      ensures out == if Truthy(geojson) then AsJson(JsonGet(transport, Request(shared.url, shared.args, CacheFlag(cache))))
        else PlainGet(transport, Request(shared.url, shared.args, false), Some(XmlType), cache)
    {
      shared.url := GridPrefix + IntStr(precision);
      shared.args := AreaArgs(scientificname, f);
      mapper := Some(false);
      if !Truthy(geojson) {
        shared.url := shared.url + "/kml";
        out := PlainGet(transport, Request(shared.url, shared.args, false), Some(XmlType), cache);
        return;
      }
      assert shared.url == GridPrefix + IntStr(precision) + "";
      out := AsJson(JsonGet(transport, Request(shared.url, shared.args, CacheFlag(cache))));
    }

    method GetPoints(transport: Transport, scientificname: StrArg, f: AreaFilters, cache: bool) returns (out: Result<Body>)
      modifies this, shared
      ensures mapper == Some(false)
      ensures shared.url == BaseUrl + "occurrence/points" && shared.args == AreaArgs(HandleArrStr(scientificname), f)
      ensures out == JsonGet(transport, Request(shared.url, shared.args, cache))
    {
      shared.url := BaseUrl + "occurrence/points";
      shared.args := AreaArgs(HandleArrStr(scientificname), f);
      mapper := Some(false);
      out := JsonGet(transport, Request(shared.url, shared.args, cache));
    }

    method Point(transport: Transport, x: Value, y: Value, z: Value, scientificname: StrArg, f: AreaFilters, cache: bool)
      returns (out: Result<Body>)
      modifies this, shared
      ensures mapper == Some(false)
      ensures shared.url == PointUrl(x, y, z) && shared.args == AreaArgs(HandleArrStr(scientificname), f)
      ensures out == JsonGet(transport, Request(shared.url, shared.args, cache))
    {
      var zs := if Truthy(z) then Str(z) else "";
      shared.url := PointPrefix + Str(x) + "/" + Str(y) + "/" + zs;
      shared.args := AreaArgs(HandleArrStr(scientificname), f);
      mapper := Some(false);
      out := JsonGet(transport, Request(shared.url, shared.args, cache));
    }

    /** tile: a vector tile goes through a plain GET with no content-type
        check; the cache keyword is handled as in grid. */
    method Tile(transport: Transport, x: Value, y: Value, z: Value, mvt: Value, scientificname: StrArg, f: AreaFilters, cache: Option<bool>)
      returns (out: Result<Reply>)
      modifies this, shared
      ensures mapper == Some(false)
      ensures shared.url == TileUrl(x, y, z, mvt) && shared.args == AreaArgs(HandleArrStr(scientificname), f)
      ensures out == if Truthy(mvt) then PlainGet(transport, Request(shared.url, shared.args, false), None, cache)
        else AsJson(JsonGet(transport, Request(shared.url, shared.args, CacheFlag(cache))))
    {
      shared.url := TilePrefix + Str(x) + "/" + Str(y) + "/" + Str(z);
      shared.args := AreaArgs(HandleArrStr(scientificname), f);
      mapper := Some(false);
      if Truthy(mvt) {
        shared.url := shared.url + ".mvt";
        out := PlainGet(transport, Request(shared.url, shared.args, false), None, cache);
        return;
      }
      assert shared.url == TilePrefix + Str(x) + "/" + Str(y) + "/" + Str(z) + "";
      out := AsJson(JsonGet(transport, Request(shared.url, shared.args, CacheFlag(cache))));
    }

    method Centroid(transport: Transport, scientificname: StrArg, f: AreaFilters, cache: bool) returns (out: Result<Body>)
      modifies this, shared
      ensures mapper == Some(false)
      ensures shared.url == BaseUrl + "occurrence/centroid" && shared.args == AreaArgs(HandleArrStr(scientificname), f)
      ensures out == JsonGet(transport, Request(shared.url, shared.args, cache))
    {
      shared.url := BaseUrl + "occurrence/centroid";
      shared.args := AreaArgs(HandleArrStr(scientificname), f);
      mapper := Some(false);
      out := JsonGet(transport, Request(shared.url, shared.args, cache));
    }

    /** get_mapper_url: AttributeError before any query; the fixed message
        after a query other than search; after search, the taxon lookup
        writes into the shared args and the URL is built from them. */
    method MapperUrl(lookup: Value -> Result<Value>) returns (r: Result<string>)
      modifies shared
      ensures shared.url == old(shared.url)
      ensures mapper == None ==> r == Err(AttributeError("mapper")) && shared.args == old(shared.args)
      ensures mapper == Some(false) ==> r == Ok(NoMapperUrl) && shared.args == old(shared.args)
      ensures mapper == Some(true) ==>
        match MapperArgs(old(shared.args), lookup)
        case Ok(a) => shared.args == a && r == Ok(BuildApiUrl(MapperBase, a))
        case Err(e) => shared.args == old(shared.args) && r == Err(e)
    {
      if mapper.None? {
        return Err(AttributeError("mapper"));
      }
      if !mapper.value {
        return Ok(NoMapperUrl);
      }
      var a := MapperArgs(shared.args, lookup);
      if a.Err? {
        return Err(a.error);
      }
      shared.args := a.value;
      r := Ok(BuildApiUrl(MapperBase, shared.args));
    }
  }
}
