/**
 The dashboard description that the analytics service returns when asked for the
 `dashboard_elements,dashboard_filters` projection of a dashboard, reduced to the
 parts that the cache-warming run reads. Every entity is a transient value: it is
 fetched once per run and never updated.
 */
module Dashboard {

  /** A value that may be absent (Python's `None`). */
  datatype Option<+T> = None | Some(value: T)

  /** A user-facing filter control of the dashboard. The empty string as
      `defaultValue` means "no default". */
  datatype DashboardFilter = DashboardFilter(name: string, defaultValue: string)

  /** One binding from a dashboard filter to a field of a tile's query. */
  datatype Listen = Listen(dashboardFilterName: string, field: string)

  /** A group of listen bindings of a tile. */
  datatype Filterable = Filterable(listen: seq<Listen>)

  /** How a tile's results are produced: its filterable groups and the table
      calculations or custom fields (`dynamic_fields`, a JSON text). */
  datatype ResultMaker = ResultMaker(filterables: seq<Filterable>, dynamicFields: Option<string>)

  /** The query embedded in a data tile, with the tile's own filters. Its list
      attributes and limits may be null in the service's records. */
  datatype Query = Query(
    id: string,
    model: string,
    view: string,
    fields: Option<seq<string>>,
    filters: map<string, string>,
    pivots: Option<seq<string>>,
    sorts: Option<seq<string>>,
    limit: Option<string>,
    columnLimit: Option<string>,
    total: Option<bool>,
    rowTotal: Option<string>,
    subtotals: Option<seq<string>>,
    filterExpression: Option<string>)

  /** A dashboard tile. Text and HTML tiles carry no query. */
  datatype Element = Element(title: string, query: Option<Query>, resultMaker: ResultMaker)

  /** The projection of a dashboard that the run fetches. */
  datatype Dashboard = Dashboard(elements: seq<Element>, filters: seq<DashboardFilter>)
}
