/**
 Filter resolution: which dashboard default values reach which field of a
 tile's query. Three steps, each an imperative routine proved against a
 specification function or predicate:
 - the dashboard's default filters, a map from filter name to value;
 - a tile's applicable filters, a map from filter name to field;
 - the resolved query filters, a map from field to value.
 */
module FilterResolver {
  import opened Dashboard

  // ---------------------------------------------------------------------------
  // Dashboard default filters
  // ---------------------------------------------------------------------------

  /** The default-filter map built by visiting `fs` left to right: a filter
      whose default is not exactly "" sets (or overwrites) its name's entry. */
  function DefaultFilters(fs: seq<DashboardFilter>): (m: map<string, string>)
    ensures forall n :: n in m ==> m[n] != ""
    decreases |fs|
  {
    if fs == [] then map[]
    else
      var m0 := DefaultFilters(fs[..|fs| - 1]);
      var f := fs[|fs| - 1];
      if f.defaultValue != "" then m0[f.name := f.defaultValue] else m0
  }

  /** Builds the default-filter map of a dashboard with an index loop. */
  method GetDashboardDefaultFilters(d: Dashboard) returns (m: map<string, string>)
    ensures m == DefaultFilters(d.filters)
  {
    m := map[];
    for i := 0 to |d.filters|
      invariant m == DefaultFilters(d.filters[..i])
    {
      assert d.filters[..i + 1][..i] == d.filters[..i];
      if d.filters[i].defaultValue != "" {
        m := m[d.filters[i].name := d.filters[i].defaultValue];
      }
    }
    assert d.filters[..|d.filters|] == d.filters;
  }

  /** A name has a default exactly when some filter of that name has a default
      other than "" (an exact test: whitespace-only defaults count). */
  lemma {:induction false} DefaultFiltersKeys(fs: seq<DashboardFilter>, n: string)
    ensures n in DefaultFilters(fs) <==>
            exists i :: 0 <= i < |fs| && fs[i].name == n && fs[i].defaultValue != ""
    decreases |fs|
  {
    if fs != [] {
      var init := fs[..|fs| - 1];
      DefaultFiltersKeys(init, n);
      if exists i :: 0 <= i < |init| && init[i].name == n && init[i].defaultValue != "" {
        var i :| 0 <= i < |init| && init[i].name == n && init[i].defaultValue != "";
        assert fs[i] == init[i];
      }
      if exists i :: 0 <= i < |fs| && fs[i].name == n && fs[i].defaultValue != "" {
        var i :| 0 <= i < |fs| && fs[i].name == n && fs[i].defaultValue != "";
        if i < |init| {
          assert init[i] == fs[i];
        }
      }
    }
  }

  /** Among several filters with a default and the same name, the last one in
      list order gives the value. */
  lemma {:induction false} DefaultFiltersLastWins(fs: seq<DashboardFilter>, i: nat)
    requires i < |fs| && fs[i].defaultValue != ""
    requires forall j :: i < j < |fs| && fs[j].name == fs[i].name ==> fs[j].defaultValue == ""
    ensures fs[i].name in DefaultFilters(fs)
    ensures DefaultFilters(fs)[fs[i].name] == fs[i].defaultValue
    decreases |fs|
  {
    var init := fs[..|fs| - 1];
    if i < |fs| - 1 {
      assert init[i] == fs[i];
      DefaultFiltersLastWins(init, i);
    }
  }

  /** A dashboard whose only default is whitespace still passes it on. */
  lemma WhitespaceDefaultKept()
    ensures DefaultFilters([DashboardFilter("Region", " ")]) == map["Region" := " "]
    ensures DefaultFilters([DashboardFilter("Region", "")]) == map[]
  {
  }

  // ---------------------------------------------------------------------------
  // Applicable filters of a tile
  // ---------------------------------------------------------------------------

  /** The names that occur in a listen list. */
  function ListenNames(ls: seq<Listen>): set<string>
  {
    set l | l in ls :: l.dashboardFilterName
  }

  /** The listen map built by visiting `ls` left to right: every binding sets
      (or overwrites) its filter name's field. */
  function ListenMap(ls: seq<Listen>): (m: map<string, string>)
    ensures m.Keys == ListenNames(ls)
    decreases |ls|
  {
    if ls == [] then map[]
    else
      var l := ls[|ls| - 1];
      var m0 := ListenMap(ls[..|ls| - 1]);
      assert ListenNames(ls) == ListenNames(ls[..|ls| - 1]) + {l.dashboardFilterName} by {
        assert ls == ls[..|ls| - 1] + [l];
      }
      m0[l.dashboardFilterName := l.field]
  }

  /** The applicable filters of a tile: only its first filterable group is read. */
  function VisApplicableFilters(e: Element): map<string, string>
    requires |e.resultMaker.filterables| > 0
  {
    ListenMap(e.resultMaker.filterables[0].listen)
  }

  /** One more binding updates the listen map of the bindings before it. */
  lemma ListenMapStep(ls: seq<Listen>, i: nat)
    requires i < |ls|
    ensures ListenMap(ls[..i + 1]) == ListenMap(ls[..i])[ls[i].dashboardFilterName := ls[i].field]
  {
    assert ls[..i + 1][..i] == ls[..i];
  }

  /** Builds the applicable-filter map of a tile with an index loop. */
  method GetVisApplicableFilters(e: Element) returns (m: map<string, string>)
    requires |e.resultMaker.filterables| > 0
    ensures m == VisApplicableFilters(e)
  {
    var ls := e.resultMaker.filterables[0].listen;
    m := map[];
    for i := 0 to |ls|
      invariant m == ListenMap(ls[..i])
    {
      ListenMapStep(ls, i);
      m := m[ls[i].dashboardFilterName := ls[i].field];
    }
    assert ls[..|ls|] == ls;
  }

  /** A filter name that several bindings share maps to the field of the last. */
  lemma {:induction false} ListenMapLastWins(ls: seq<Listen>, i: nat)
    requires i < |ls|
    requires forall j :: i < j < |ls| ==> ls[j].dashboardFilterName != ls[i].dashboardFilterName
    ensures ListenMap(ls)[ls[i].dashboardFilterName] == ls[i].field
    decreases |ls|
  {
    var init := ls[..|ls| - 1];
    if i < |ls| - 1 {
      assert init[i] == ls[i];
      assert ls[i] in init;
      ListenMapLastWins(init, i);
    }
  }

  /** The map has at most one entry per binding. */
  lemma {:induction false} ListenMapSize(ls: seq<Listen>)
    ensures |ListenMap(ls)| <= |ls|
    decreases |ls|
  {
    if ls != [] {
      ListenMapSize(ls[..|ls| - 1]);
    }
  }

  /** With distinct filter names the map has one entry per binding. */
  lemma {:induction false} ListenMapDistinctSize(ls: seq<Listen>)
    requires forall i, j :: 0 <= i < j < |ls| ==> ls[i].dashboardFilterName != ls[j].dashboardFilterName
    ensures |ListenMap(ls)| == |ls|
    decreases |ls|
  {
    if ls != [] {
      ListenMapDistinctSize(ls[..|ls| - 1]);
    }
  }

  /** Groups after the first filterable never change the applicable filters. */
  lemma OnlyFirstFilterableRead(e: Element, rest: seq<Filterable>)
    requires |e.resultMaker.filterables| > 0
    ensures var first := e.resultMaker.filterables[0];
            var e' := e.(resultMaker := e.resultMaker.(filterables := [first] + rest));
            VisApplicableFilters(e') == VisApplicableFilters(e)
  {
  }

  // ---------------------------------------------------------------------------
  // Resolved query filters
  // ---------------------------------------------------------------------------

  /** The fields that the filter names known to both maps point to. */
  function Image(a: map<string, string>, s: set<string>): set<string>
  {
    set k | k in s && k in a :: a[k]
  }

  /** `a` sends no two names of `s` to the same field. */
  ghost predicate InjectiveOn(a: map<string, string>, s: set<string>)
  {
    forall k1, k2 :: k1 in s && k2 in s && k1 in a && k2 in a && a[k1] == a[k2] ==> k1 == k2
  }

  /** Names that `a` sends to the same field carry the same default in `d`. */
  ghost predicate Agree(a: map<string, string>, d: map<string, string>)
  {
    forall k1, k2 :: k1 in a && k2 in a && k1 in d && k2 in d && a[k1] == a[k2] ==> d[k1] == d[k2]
  }

  /** `r` is a result that the comprehension over the common filter names can
      produce for some iteration order of that set: its keys are the fields of
      the common names, and each field holds the default of one common name
      pointing to it. */
  ghost predicate Resolves(a: map<string, string>, d: map<string, string>, r: map<string, string>)
  {
    && r.Keys == Image(a, a.Keys * d.Keys)
    && forall f :: f in r ==> exists k :: k in a && k in d && a[k] == f && d[k] == r[f]
  }

  /** Resolves the query filters of a tile. The common filter names are visited
      in an unspecified order, as a set is; when several names point to one
      field, any of their defaults may be the one left. */
  method GetQueryFilterNameDimension(e: Element, defaults: map<string, string>)
    returns (r: map<string, string>)
    requires |e.resultMaker.filterables| > 0
    ensures Resolves(VisApplicableFilters(e), defaults, r)
  {
    var applicable := GetVisApplicableFilters(e);
    var common := defaults.Keys * applicable.Keys;
    var todo := common;
    r := map[];
    while todo != {}
      invariant todo <= common
      invariant r.Keys == Image(applicable, common - todo)
      invariant forall f :: f in r ==>
                  exists k :: k in common - todo && applicable[k] == f && defaults[k] == r[f]
      decreases todo
    {
      var k :| k in todo;
      ghost var done := common - todo;
      r := r[applicable[k] := defaults[k]];
      todo := todo - {k};
      assert common - todo == done + {k};
    }
    assert common == applicable.Keys * defaults.Keys;
  }

  /** When every choice of winner agrees, the comprehension has one result. */
  function QueryFilters(a: map<string, string>, d: map<string, string>): (r: map<string, string>)
    requires Agree(a, d)
    ensures Resolves(a, d, r)
  {
    map k | k in a.Keys * d.Keys :: a[k] := d[k]
  }

  /** Under agreement the outcomes of every iteration order coincide with the
      single deterministic result. */
  lemma ResolvesUnique(a: map<string, string>, d: map<string, string>, r: map<string, string>)
    requires Agree(a, d)
    ensures Resolves(a, d, r) <==> r == QueryFilters(a, d)
  {
  }

  /** When no two common names share a field, each common name's field holds
      exactly that name's default. */
  lemma ResolvedValueInjective(a: map<string, string>, d: map<string, string>, r: map<string, string>, k: string)
    requires Resolves(a, d, r) && InjectiveOn(a, a.Keys * d.Keys)
    requires k in a && k in d
    ensures a[k] in r && r[a[k]] == d[k]
  {
    assert a[k] in Image(a, a.Keys * d.Keys);
    var k' :| k' in a && k' in d && a[k'] == a[k] && d[k'] == r[a[k]];
  }

  /** A map never has more distinct images than arguments, and exactly as many
      when it is injective there. */
  lemma {:induction false} ImageCard(a: map<string, string>, s: set<string>)
    requires s <= a.Keys
    ensures |Image(a, s)| <= |s|
    ensures InjectiveOn(a, s) ==> |Image(a, s)| == |s|
    decreases s
  {
    if s != {} {
      var x :| x in s;
      var s' := s - {x};
      ImageCard(a, s');
      assert Image(a, s) == Image(a, s') + {a[x]};
      if InjectiveOn(a, s) {
        assert a[x] !in Image(a, s');
      }
    }
  }

  /** The resolved filters have at most one entry per common filter name, and
      exactly one when no two common names point to the same field. */
  lemma ResolvedSize(a: map<string, string>, d: map<string, string>, r: map<string, string>)
    requires Resolves(a, d, r)
    ensures |r| <= |a.Keys * d.Keys|
    ensures InjectiveOn(a, a.Keys * d.Keys) ==> |r| == |a.Keys * d.Keys|
  {
    ImageCard(a, a.Keys * d.Keys);
    assert |r| == |r.Keys|;
  }

  /** A filter name that is not defaulted contributes nothing. */
  lemma UndefaultedNameIgnored(a: map<string, string>, d: map<string, string>, r: map<string, string>, n: string)
    requires n !in d
    ensures Resolves(a, d, r) <==> Resolves(a - {n}, d, r)
  {
    assert (a - {n}).Keys * d.Keys == a.Keys * d.Keys;
    assert Image(a - {n}, a.Keys * d.Keys) == Image(a, a.Keys * d.Keys);
  }

  /** A filter name that the tile does not listen to contributes nothing. */
  lemma UnlistenedNameIgnored(a: map<string, string>, d: map<string, string>, r: map<string, string>, n: string)
    requires n !in a
    ensures Resolves(a, d, r) <==> Resolves(a, d - {n}, r)
  {
  }

  /** A filter whose every occurrence has the empty default never yields an
      entry, whatever the tile's listen bindings say. */
  lemma EmptyDefaultIgnored(fs: seq<DashboardFilter>, a: map<string, string>, r: map<string, string>, n: string)
    requires forall i :: 0 <= i < |fs| && fs[i].name == n ==> fs[i].defaultValue == ""
    ensures n !in DefaultFilters(fs)
    ensures Resolves(a, DefaultFilters(fs), r) <==> Resolves(a - {n}, DefaultFilters(fs), r)
  {
    DefaultFiltersKeys(fs, n);
    UndefaultedNameIgnored(a, DefaultFilters(fs), r, n);
  }
}
