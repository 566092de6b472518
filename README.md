# Dashboard cache warming: filter resolution and query dispatch

This project models the core of a script that warms the result cache of a
business-intelligence dashboard. The script fetches a dashboard's tiles and
filters. For every tile that carries a query, it rebuilds that query with the
dashboard's default filter values injected. It then creates the query on the
analytics service and runs it with cache writing enabled.

The model has three modules:

- `Dashboard` (`dashboard.dfy`) holds the data the run reads: dashboard
  filters (name, default value), tiles (title, optional query, result maker
  with filterable groups of listen bindings and dynamic fields), and the
  tile's query record.
- `FilterResolver` (`filters.dfy`) holds the three filter steps. Each
  imperative index loop of the source is a Dafny method with loop invariants.
  Each method is proved against a specification function:
  - `GetDashboardDefaultFilters` is proved against `DefaultFilters`;
  - `GetVisApplicableFilters` is proved against `ListenMap`, taken of the
    first filterable group;
  - `GetQueryFilterNameDimension` is proved against the predicate `Resolves`.
    Its dict comprehension visits a Python set, so it is a loop that picks
    the common filter names in an unspecified order. `Resolves` describes
    every result that some visiting order can produce.
  - `QueryFilters` is the single result in the case where every possible
    winner carries the same value.
- `QueryDispatcher` (`dispatch.dfy`) holds the tile loop. The remote calls
  are a trace of `Request` values: `CreateQuery` carries the query body and
  `CreateQueryTask` carries the execution options and the cache flag.
  `CreateQueryRequest` and `RunTaskRequest` model the two SDK wrappers. The
  service returns an identifier for each created query; the model treats it
  as opaque and writes `CreatedId(n)` for the n-th query created in the run.
  `Planned` states which traces a run may issue. `RunDashboardQueries`
  returns `Completed(trace)` or, when a data tile has no filterable group,
  `Aborted(trace, at)`: the source's index error stops the run at that tile.

Two behaviours of the code are easy to misread, and the model keeps both:

- The applicable-filter map is not always as large as the listen list.
  Repeated filter names overwrite one another, so the size equals the list
  length only when the names are distinct (`ListenMapDistinctSize`).
- A tile with no filterable group does not yield an empty map. Reading
  `filterables[0]` raises an error and stops the run (`Aborted`).

## Model

| member | source | states |
|---|---|---|
| `FilterResolver.DefaultFilters` | main.py:146-151 | no filter name ever gets the empty string as its default value |
| `FilterResolver.GetDashboardDefaultFilters` | main.py:136-151 | the index loop over the dashboard filters builds exactly the left-to-right default-filter map |
| `FilterResolver.DefaultFiltersKeys` | main.py:147-150 | a name is a key iff some filter of that name has a default other than exactly "" |
| `FilterResolver.DefaultFiltersLastWins` | main.py:147-150 | when several filters share a name, the value is the last non-empty default in list order |
| `FilterResolver.WhitespaceDefaultKept` | main.py:148 | a whitespace-only default is kept and an empty default is dropped |
| `FilterResolver.ListenMap` | main.py:127-133 | the key set is exactly the set of filter names in the listen list |
| `FilterResolver.ListenMapSize` | main.py:128-132 | the map never has more entries than the listen list has bindings |
| `FilterResolver.GetVisApplicableFilters` | main.py:115-133 | the index loop over the first filterable group's listens builds exactly that group's listen map |
| `FilterResolver.ListenMapLastWins` | main.py:128-132 | each filter name maps to the field of the last binding with that name |
| `FilterResolver.ListenMapDistinctSize` | main.py:128-132 | with distinct filter names there is one entry per binding |
| `FilterResolver.OnlyFirstFilterableRead` | main.py:128-131 | filterable groups after the first never change the applicable filters |
| `FilterResolver.GetQueryFilterNameDimension` | main.py:154-180 | the keys of the result are the fields of the filter names common to both maps, and each field holds the default of a common name that points to it |
| `FilterResolver.QueryFilters` | main.py:173-177 | when all candidates for a field agree, the comprehension's result is one that `Resolves` admits |
| `FilterResolver.ResolvesUnique` | main.py:173-177 | when all candidates agree, every visiting order of the common names gives the same result |
| `FilterResolver.ResolvedValueInjective` | main.py:173-177 | when no two common names share a field, each common name's field holds exactly that name's default |
| `FilterResolver.ResolvedSize` | main.py:173-177 | the result has at most one entry per common name, and exactly one when no two common names share a field |
| `FilterResolver.UndefaultedNameIgnored` | main.py:173 | a listened name without a default contributes nothing |
| `FilterResolver.UnlistenedNameIgnored` | main.py:173 | a defaulted name the tile does not listen to contributes nothing |
| `FilterResolver.EmptyDefaultIgnored` | main.py:146-177 | a filter whose defaults are all "" never yields an entry, whatever the tile's bindings |
| `QueryDispatcher.QueryElements` | main.py:199-202 | every data tile is a tile with a query, every tile with a query is among the data tiles, and there are no more data tiles than tiles |
| `QueryDispatcher.QueryElementsPositions` | main.py:199-202 | the data tiles sit at strictly increasing positions of the tile list, and those positions are exactly the tiles with a query: each is taken once, in dashboard order |
| `QueryDispatcher.QueryElementsAppend` | main.py:199-202 | taking the data tiles commutes with concatenation, so tile order is kept |
| `QueryDispatcher.CreateQueryRequestFields` | main.py:58-90 | a request is the creation call for a tile's query iff it is a creation whose body holds the query's model, view, fields, sorts, limit, column limit, total and pivots, the given filters and the given dynamic fields |
| `QueryDispatcher.RunTaskRequestFields` | main.py:93-111 | a request is the execution call for a created query iff it names that query id, asks for JSON results from source "Dashboard", is not deferred, and has the cache enabled |
| `QueryDispatcher.PlannedShape` | main.py:199-232 | a planned trace holds two requests per data tile in tile order: a creation request that copies model, view, fields, sorts, limit, column limit, total, pivots and dynamic fields verbatim, with resolved filters, then a JSON execution request for that created query from source "Dashboard", not deferred, with cache enabled |
| `QueryDispatcher.PlannedSkipsQuerylessTiles` | main.py:202 | tiles without a query have no effect on the possible traces |
| `QueryDispatcher.PlannedUnique` | main.py:199-232 | when resolution agrees for every tile, there is at most one planned trace; when moreover every data tile has a filterable group, `RunDashboardQueries` completes with a planned trace, which is therefore that one |
| `QueryDispatcher.RunDashboardQueries` | main.py:183-232 | the run completes iff every data tile has a filterable group, and then its trace is planned; otherwise it stops at the first data tile without one, after the planned trace of the earlier tiles |
| `QueryDispatcher.RegionScenario` | main.py:183-232 | an HTML tile plus a chart bound to "Region" with default "APAC" gives exactly one creation request with `orders.region = APAC`, then its cached execution |
| `QueryDispatcher.EmptyRegionScenario` | main.py:183-232 | with an empty "Region" default the chart's query gets no filter at all |

## Left out

- SDK initialisation and the settings override that injects credentials are not modelled. They configure a vendor library.
- The fetch of the dashboard over the network is not modelled: the run takes the fetched `Dashboard` value as its parameter.
- The remote calls to create a query and to create a query task are recorded as `Request` values and not performed. Their responses are not modelled beyond the created query's opaque identifier. The returned task handle is ignored, as it is in the source.
- Failures of the remote calls are not modelled: every creation and execution call is taken to succeed. In the source an error raised by either call stops the run, possibly between a tile's creation request and its execution request; `Outcome` has no way to record that.
- Progress printing and the entry point with its hard-coded dashboard id are not modelled.
- GetQueryFilterNameDimension: Python's set iteration order is left unspecified. When two listened names point to one field with different defaults, the model admits every winner.
- Python dicts keep insertion order; Dafny maps do not, so the key order of the filter map sent to the service is not modelled.
- Data-shape errors are not modelled: a missing key, a tile without a result maker, or a null value where the code indexes. The typed records rule them out. The only such error kept is the missing first filterable group, which can occur in a well-typed dashboard.
- A null `default_value` is not modelled; defaults are strings. The source would keep a null default, because `None != ""`.
- The fields `id`, `row_total`, `subtotals` and `filter_expression` are read by the source and not forwarded. They are part of `Query` and are absent from `WriteQuery`; nothing about them is stated beyond that.
