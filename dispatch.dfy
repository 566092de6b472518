/**
 Query dispatch: for every data tile of a dashboard the run creates a query
 carrying the tile's own query definition with its filters replaced by the
 resolved dashboard defaults, then asks for that query to be run with its
 results cached. The remote calls are recorded as a trace of requests; the
 identifier the service returns for a created query is opaque and named by the
 position of its creation in the run.
 */
module QueryDispatcher {
  import opened Dashboard
  import opened FilterResolver

  /** The identifier the service returns for the n-th query created in a run. */
  datatype QueryId = CreatedId(n: nat)

  datatype ResultFormat = Json

  /** The body of a query-creation request. */
  datatype WriteQuery = WriteQuery(
    model: string,
    view: string,
    fields: Option<seq<string>>,
    filters: map<string, string>,
    sorts: Option<seq<string>>,
    limit: Option<string>,
    columnLimit: Option<string>,
    total: Option<bool>,
    pivots: Option<seq<string>>,
    dynamicFields: Option<string>)

  /** The body of a query-execution request. */
  datatype WriteQueryTask = WriteQueryTask(
    queryId: QueryId,
    resultFormat: ResultFormat,
    source: string,
    deferred: bool)

  /** A remote call issued by the run. */
  datatype Request =
    | CreateQuery(body: WriteQuery)
    | CreateQueryTask(task: WriteQueryTask, cache: bool)

  /** How a run ends: after the last tile, or at the tile `at` whose query needs
      filter resolution but which has no filterable group (an index error that
      stops the run); `trace` holds the requests issued before that point. */
  datatype Outcome =
    | Completed(trace: seq<Request>)
    | Aborted(trace: seq<Request>, at: nat)

  /** The query-creation call for a tile's query with the given filters. */
  function CreateQueryRequest(q: Query, filters: map<string, string>, dynamicFields: Option<string>): Request
  {
    CreateQuery(WriteQuery(q.model, q.view, q.fields, filters, q.sorts, q.limit,
                           q.columnLimit, q.total, q.pivots, dynamicFields))
  }

  /** The execution call for a created query: JSON results, source "Dashboard",
      not deferred, results cached. */
  function RunTaskRequest(id: QueryId): Request
  {
    CreateQueryTask(WriteQueryTask(id, Json, "Dashboard", false), true)
  }

  /** A request is the creation call for a tile's query exactly when it is a
      creation whose body carries the query's model, view, fields, sorts,
      limit, column limit, total and pivots, the given filters and the given
      dynamic fields, and nothing else. */
  lemma CreateQueryRequestFields(q: Query, filters: map<string, string>, dynamicFields: Option<string>, req: Request)
    ensures req == CreateQueryRequest(q, filters, dynamicFields) <==>
            && req.CreateQuery?
            && req.body.model == q.model && req.body.view == q.view && req.body.fields == q.fields
            && req.body.filters == filters && req.body.sorts == q.sorts && req.body.limit == q.limit
            && req.body.columnLimit == q.columnLimit && req.body.total == q.total
            && req.body.pivots == q.pivots && req.body.dynamicFields == dynamicFields
  {
  }

  /** A request is the execution call for a created query exactly when it asks
      for JSON results of that query from source "Dashboard", not deferred, with
      the cache enabled. */
  lemma RunTaskRequestFields(id: QueryId, req: Request)
    ensures req == RunTaskRequest(id) <==>
            && req.CreateQueryTask?
            && req.task.queryId == id && req.task.resultFormat == Json
            && req.task.source == "Dashboard" && !req.task.deferred && req.cache
  {
  }

  /** The tiles that carry a query, in dashboard order. */
  function QueryElements(es: seq<Element>): (qs: seq<Element>)
    ensures |qs| <= |es|
    ensures forall e :: e in qs ==> e in es && e.query.Some?
    ensures forall i :: 0 <= i < |es| && es[i].query.Some? ==> es[i] in qs
    decreases |es|
  {
    if es == [] then []
    else
      var init := es[..|es| - 1];
      var qs0 := QueryElements(init);
      var e := es[|es| - 1];
      assert forall i :: 0 <= i < |init| ==> es[i] == init[i];
      if e.query.Some? then qs0 + [e] else qs0
  }

  /** `idx` lists, strictly increasing, the positions in `es` of the tiles in `qs`,
      and these are exactly the positions of the tiles with a query. */
  ghost predicate Positions(es: seq<Element>, qs: seq<Element>, idx: seq<nat>)
  {
    && |idx| == |qs|
    && (forall j :: 0 <= j < |idx| ==> idx[j] < |es| && qs[j] == es[idx[j]])
    && (forall j, k :: 0 <= j < k < |idx| ==> idx[j] < idx[k])
    && (forall i :: 0 <= i < |es| ==> (i in idx <==> es[i].query.Some?))
  }

  /** Positions of the data tiles carry over to one more tile. */
  lemma PositionsAppend(init: seq<Element>, e: Element, qs0: seq<Element>, idx0: seq<nat>)
    requires Positions(init, qs0, idx0)
    ensures e.query.Some? ==> Positions(init + [e], qs0 + [e], idx0 + [|init|])
    ensures e.query.None? ==> Positions(init + [e], qs0, idx0)
  {
    var es := init + [e];
    assert forall i :: 0 <= i < |init| ==> es[i] == init[i];
    if e.query.Some? {
      var idx := idx0 + [|init|];
      assert forall i :: 0 <= i < |init| ==> (i in idx <==> i in idx0);
      assert |init| in idx;
    } else {
      assert |init| !in idx0;
    }
  }

  /** The data tiles are exactly the tiles with a query, each taken once and in
      dashboard order: `idx` lists their positions, strictly increasing. */
  lemma {:induction false} QueryElementsPositions(es: seq<Element>) returns (idx: seq<nat>)
    ensures Positions(es, QueryElements(es), idx)
    decreases |es|
  {
    if es == [] {
      idx := [];
    } else {
      var init, e := es[..|es| - 1], es[|es| - 1];
      var idx0 := QueryElementsPositions(init);
      assert es == init + [e];
      PositionsAppend(init, e, QueryElements(init), idx0);
      idx := if e.query.Some? then idx0 + [|init|] else idx0;
    }
  }

  /** The data tiles of two consecutive runs of tiles are those of each, in order. */
  lemma {:induction false} QueryElementsAppend(es1: seq<Element>, es2: seq<Element>)
    ensures QueryElements(es1 + es2) == QueryElements(es1) + QueryElements(es2)
    decreases |es2|
  {
    if es2 == [] {
      assert es1 + es2 == es1;
    } else {
      var init := es2[..|es2| - 1];
      assert (es1 + es2)[..|es1 + es2| - 1] == es1 + init;
      assert (es1 + es2)[|es1 + es2| - 1] == es2[|es2| - 1];
      QueryElementsAppend(es1, init);
    }
  }

  /** Every tile reachable for filter resolution has a first filterable group. */
  ghost predicate Resolvable(es: seq<Element>)
  {
    forall i :: 0 <= i < |es| && es[i].query.Some? ==> |es[i].resultMaker.filterables| > 0
  }

  /** Appending a tile keeps resolvability exactly when the tile is resolvable. */
  lemma ResolvableAppend(es: seq<Element>, e: Element)
    ensures Resolvable(es + [e]) <==>
            Resolvable(es) && (e.query.Some? ==> |e.resultMaker.filterables| > 0)
  {
    var es' := es + [e];
    assert es'[|es|] == e;
    if Resolvable(es + [e]) {
      forall i | 0 <= i < |es| && es[i].query.Some? ensures |es[i].resultMaker.filterables| > 0 {
        assert es'[i] == es[i];
      }
    }
  }

  /** `trace` is a request trace that running `es` against the default filters
      `defaults` can issue: tiles without a query add nothing, and each data
      tile adds a creation request with its resolved filters followed by the
      execution request for the query just created. */
  ghost predicate Planned(es: seq<Element>, defaults: map<string, string>, trace: seq<Request>)
    decreases |es|
  {
    if es == [] then trace == []
    else
      var init, e := es[..|es| - 1], es[|es| - 1];
      match e.query
      case None => Planned(init, defaults, trace)
      case Some(q) =>
        && |trace| >= 2
        && |e.resultMaker.filterables| > 0
        && Planned(init, defaults, trace[..|trace| - 2])
        && trace[|trace| - 2].CreateQuery?
        && var filters := trace[|trace| - 2].body.filters;
           && Resolves(VisApplicableFilters(e), defaults, filters)
           && trace[|trace| - 2] == CreateQueryRequest(q, filters, e.resultMaker.dynamicFields)
           && trace[|trace| - 1] == RunTaskRequest(CreatedId(|QueryElements(init)|))
  }

  /** The two requests the n-th data tile `e` causes: a creation request that
      copies the tile's query verbatim except for the filters, which are a
      resolution of the dashboard defaults, and the cached execution of the
      n-th created query. */
  ghost predicate IssuedFor(e: Element, defaults: map<string, string>, n: nat, create: Request, run: Request)
  {
    && e.query.Some?
    && |e.resultMaker.filterables| > 0
    && create.CreateQuery?
    && (var q, b := e.query.value, create.body;
        && b.model == q.model && b.view == q.view && b.fields == q.fields
        && b.sorts == q.sorts && b.limit == q.limit && b.columnLimit == q.columnLimit
        && b.total == q.total && b.pivots == q.pivots
        && b.dynamicFields == e.resultMaker.dynamicFields
        && Resolves(VisApplicableFilters(e), defaults, b.filters))
    && run.CreateQueryTask?
    && run.task == WriteQueryTask(CreatedId(n), Json, "Dashboard", false)
    && run.cache
  }

  /** Appending a tile without a query keeps a planned trace planned. */
  lemma PlannedAppendQueryless(init: seq<Element>, e: Element, defaults: map<string, string>, trace: seq<Request>)
    requires Planned(init, defaults, trace) && e.query.None?
    ensures Planned(init + [e], defaults, trace)
    ensures QueryElements(init + [e]) == QueryElements(init)
  {
  }

  /** Appending a data tile extends a planned trace by its two requests. */
  lemma PlannedAppendData(init: seq<Element>, e: Element, defaults: map<string, string>, trace: seq<Request>,
                          filters: map<string, string>)
    requires Planned(init, defaults, trace) && e.query.Some? && |e.resultMaker.filterables| > 0
    requires Resolves(VisApplicableFilters(e), defaults, filters)
    ensures Planned(init + [e], defaults,
                    trace + [CreateQueryRequest(e.query.value, filters, e.resultMaker.dynamicFields),
                             RunTaskRequest(CreatedId(|QueryElements(init)|))])
    ensures |QueryElements(init + [e])| == |QueryElements(init)| + 1
  {
  }

  /** A planned trace holds exactly two requests per data tile, issued for the
      data tiles one after the other in dashboard order. */
  lemma {:induction false} PlannedShape(es: seq<Element>, defaults: map<string, string>, trace: seq<Request>)
    requires Planned(es, defaults, trace)
    ensures |trace| == 2 * |QueryElements(es)|
    ensures forall j :: 0 <= j < |QueryElements(es)| ==>
              IssuedFor(QueryElements(es)[j], defaults, j, trace[2 * j], trace[2 * j + 1])
    decreases |es|
  {
    if es != [] {
      var init, e := es[..|es| - 1], es[|es| - 1];
      match e.query
      case None =>
        PlannedShape(init, defaults, trace);
      case Some(q) =>
        var t0 := trace[..|trace| - 2];
        PlannedShape(init, defaults, t0);
        var qs0 := QueryElements(init);
        assert QueryElements(es) == qs0 + [e];
        forall j | 0 <= j < |QueryElements(es)|
          ensures IssuedFor(QueryElements(es)[j], defaults, j, trace[2 * j], trace[2 * j + 1])
        {
          if j < |qs0| {
            assert QueryElements(es)[j] == qs0[j];
            assert trace[2 * j] == t0[2 * j] && trace[2 * j + 1] == t0[2 * j + 1];
          }
        }
    }
  }

  /** Tiles without a query have no effect on what a run may issue. */
  lemma {:induction false} PlannedSkipsQuerylessTiles(es: seq<Element>, defaults: map<string, string>, trace: seq<Request>)
    ensures Planned(es, defaults, trace) <==> Planned(QueryElements(es), defaults, trace)
    decreases |es|
  {
    if es != [] {
      var init, e := es[..|es| - 1], es[|es| - 1];
      var qs0 := QueryElements(init);
      PlannedSkipsQuerylessTiles(init, defaults, trace);
      if e.query.Some? {
        var qs := QueryElements(es);
        assert qs == qs0 + [e];
        assert qs[..|qs| - 1] == qs0;
        QueryElementsIdempotent(init);
        if |trace| >= 2 {
          PlannedSkipsQuerylessTiles(init, defaults, trace[..|trace| - 2]);
        }
      }
    }
  }

  /** Filtering the data tiles a second time removes nothing. */
  lemma {:induction false} QueryElementsIdempotent(es: seq<Element>)
    ensures QueryElements(QueryElements(es)) == QueryElements(es)
    decreases |es|
  {
    if es != [] {
      var init, e := es[..|es| - 1], es[|es| - 1];
      QueryElementsIdempotent(init);
      if e.query.Some? {
        var qs := QueryElements(init) + [e];
        assert qs[..|qs| - 1] == QueryElements(init);
      }
    }
  }

  /** Resolution agrees for every data tile: no two names a tile listens to that
      have defaults point to one field with different defaults. */
  ghost predicate AgreeForAll(es: seq<Element>, defaults: map<string, string>)
  {
    forall e :: e in es && e.query.Some? && |e.resultMaker.filterables| > 0 ==>
      Agree(VisApplicableFilters(e), defaults)
  }

  /** Under agreement a data tile can cause only one pair of requests. */
  lemma IssuedForUnique(e: Element, defaults: map<string, string>, n: nat,
                        c1: Request, r1: Request, c2: Request, r2: Request)
    requires IssuedFor(e, defaults, n, c1, r1) && IssuedFor(e, defaults, n, c2, r2)
    requires Agree(VisApplicableFilters(e), defaults)
    ensures c1 == c2 && r1 == r2
  {
  }

  /** Two traces issued pair by pair for the same agreeing data tiles are equal. */
  lemma IssuedTracesUnique(qs: seq<Element>, defaults: map<string, string>, t1: seq<Request>, t2: seq<Request>)
    requires AgreeForAll(qs, defaults)
    requires |t1| == 2 * |qs| && |t2| == 2 * |qs|
    requires forall j :: 0 <= j < |qs| ==> IssuedFor(qs[j], defaults, j, t1[2 * j], t1[2 * j + 1])
    requires forall j :: 0 <= j < |qs| ==> IssuedFor(qs[j], defaults, j, t2[2 * j], t2[2 * j + 1])
    ensures t1 == t2
  {
    forall k | 0 <= k < |t1| ensures t1[k] == t2[k] {
      var j := k / 2;
      assert qs[j] in qs;
      IssuedForUnique(qs[j], defaults, j, t1[2 * j], t1[2 * j + 1], t2[2 * j], t2[2 * j + 1]);
    }
  }

  /** When resolution agrees for every tile, the run can issue only one trace. */
  lemma PlannedUnique(es: seq<Element>, defaults: map<string, string>, t1: seq<Request>, t2: seq<Request>)
    requires AgreeForAll(es, defaults)
    requires Planned(es, defaults, t1) && Planned(es, defaults, t2)
    ensures t1 == t2
  {
    PlannedShape(es, defaults, t1);
    PlannedShape(es, defaults, t2);
    IssuedTracesUnique(QueryElements(es), defaults, t1, t2);
  }

  /** Runs the queries of every data tile of a dashboard: resolves the
      dashboard's default filters once, then visits the tiles in order, skipping
      those without a query, and for each data tile issues the creation of its
      query with resolved filters followed by its cached execution. */
  method RunDashboardQueries(d: Dashboard) returns (o: Outcome)
    ensures o.Completed? <==> Resolvable(d.elements)
    ensures o.Completed? ==> Planned(d.elements, DefaultFilters(d.filters), o.trace)
    ensures o.Aborted? ==>
              && o.at < |d.elements|
              && d.elements[o.at].query.Some?
              && d.elements[o.at].resultMaker.filterables == []
              && Resolvable(d.elements[..o.at])
              && Planned(d.elements[..o.at], DefaultFilters(d.filters), o.trace)
  {
    var defaults := GetDashboardDefaultFilters(d);
    var es := d.elements;
    var trace: seq<Request> := [];
    var created := 0;
    for i := 0 to |es|
      invariant Planned(es[..i], defaults, trace)
      invariant created == |QueryElements(es[..i])|
      invariant Resolvable(es[..i])
    {
      var e := es[i];
      assert es[..i + 1] == es[..i] + [e];
      ResolvableAppend(es[..i], e);
      if e.query.Some? {
        if |e.resultMaker.filterables| == 0 {
          assert !Resolvable(es) by {
            assert es[i].query.Some? && |es[i].resultMaker.filterables| == 0;
          }
          return Aborted(trace, i);
        }
        var filters := GetQueryFilterNameDimension(e, defaults);
        PlannedAppendData(es[..i], e, defaults, trace, filters);
        trace := trace + [CreateQueryRequest(e.query.value, filters, e.resultMaker.dynamicFields),
                          RunTaskRequest(CreatedId(created))];
        created := created + 1;
      } else {
        PlannedAppendQueryless(es[..i], e, defaults, trace);
      }
    }
    assert es[..|es|] == es;
    return Completed(trace);
  }

  // ---------------------------------------------------------------------------
  // Worked scenarios
  // ---------------------------------------------------------------------------

  /** A chart tile whose only binding sends filter "Region" to "orders.region". */
  function RegionChart(q: Query): Element
  {
    Element("Orders by region", Some(q),
            ResultMaker([Filterable([Listen("Region", "orders.region")])], None))
  }

  /** An HTML tile: no query, no filterables. */
  function HtmlTile(): Element
  {
    Element("Notes", None, ResultMaker([], None))
  }

  /** An HTML tile and a region chart with default "APAC": one creation request
      carrying `orders.region = APAC` and the chart's own query otherwise, then
      its cached execution; nothing for the HTML tile. */
  lemma RegionScenario(q: Query, trace: seq<Request>)
    requires Planned([HtmlTile(), RegionChart(q)], DefaultFilters([DashboardFilter("Region", "APAC")]), trace)
    ensures trace == [
      CreateQuery(WriteQuery(q.model, q.view, q.fields, map["orders.region" := "APAC"], q.sorts,
                             q.limit, q.columnLimit, q.total, q.pivots, None)),
      CreateQueryTask(WriteQueryTask(CreatedId(0), Json, "Dashboard", false), true)]
  {
    var fs := [DashboardFilter("Region", "APAC")];
    assert fs[..0] == [];
    var defaults := DefaultFilters(fs);
    assert defaults == map["Region" := "APAC"];
    var es := [HtmlTile(), RegionChart(q)];
    assert es[..1] == [HtmlTile()] && [HtmlTile()][..0] == [];
    assert QueryElements(es[..1]) == [];
    var ls := [Listen("Region", "orders.region")];
    assert ls[..0] == [];
    var a := VisApplicableFilters(RegionChart(q));
    assert a == map["Region" := "orders.region"];
    var filters := trace[0].body.filters;
    assert a.Keys * defaults.Keys == {"Region"};
    assert Image(a, {"Region"}) == {"orders.region"};
    assert filters == map["orders.region" := "APAC"];
  }

  /** With the empty default for "Region" the chart's query gets no filter. */
  lemma EmptyRegionScenario(q: Query, trace: seq<Request>)
    requires Planned([HtmlTile(), RegionChart(q)], DefaultFilters([DashboardFilter("Region", "")]), trace)
    ensures |trace| == 2 && trace[0].CreateQuery? && trace[0].body.filters == map[]
  {
    var fs := [DashboardFilter("Region", "")];
    assert fs[..0] == [];
    var es := [HtmlTile(), RegionChart(q)];
    assert es[..1] == [HtmlTile()] && [HtmlTile()][..0] == [];
    assert Image(VisApplicableFilters(RegionChart(q)), {}) == {};
  }
}
