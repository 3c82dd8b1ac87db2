/**
 * The tariff schedule page (`src/app/dashboard/tarifario/page.tsx`): the
 * store rows are renamed into view rows, the origin filter offers "Todas"
 * followed by the distinct origins in first-seen order, and the table shows
 * either every row or the rows of the selected origin.
 */
module Tarifario {
  import opened Wrappers

  /** The filter value meaning "no restriction". */
  const AllBases: string := "Todas"

  /** One row as the `tarifas` table stores it (snake_case columns). */
  datatype StoreRow = StoreRow(
    id: Option<int>,
    origen: string,
    carga_descarga: string,
    rabon: string,
    sencillo: string,
    sencillo_sobrepeso: string,
    precio_full: string,
    full_sobrepeso: string)

  /** One row as the page shows it (`TarifaRow`). Rates are opaque display text. */
  datatype TarifaRow = TarifaRow(
    id: Option<int>,
    origen: string,
    cargaDescarga: string,
    rabon: string,
    sencillo: string,
    sencilloSobrepeso: string,
    full: string,
    fullSobrepeso: string)

  /** The per-item mapping inside `fetchTarifas`. */
  function FromStoreRow(item: StoreRow): (t: TarifaRow)
    ensures t.id == item.id && t.origen == item.origen && t.rabon == item.rabon && t.sencillo == item.sencillo
    ensures t.cargaDescarga == item.carga_descarga && t.sencilloSobrepeso == item.sencillo_sobrepeso
    ensures t.full == item.precio_full && t.fullSobrepeso == item.full_sobrepeso
  {
    TarifaRow(item.id, item.origen, item.carga_descarga, item.rabon, item.sencillo,
              item.sencillo_sobrepeso, item.precio_full, item.full_sobrepeso)
  }

  /** The inverse renaming, back to the store's column names. */
  function ToStoreRow(t: TarifaRow): (item: StoreRow)
  {
    StoreRow(t.id, t.origen, t.cargaDescarga, t.rabon, t.sencillo,
             t.sencilloSobrepeso, t.full, t.fullSobrepeso)
  }

  /** The renaming loses nothing: each direction undoes the other. */
  lemma RowMappingRoundTrip(item: StoreRow, t: TarifaRow)
    ensures ToStoreRow(FromStoreRow(item)) == item
    ensures FromStoreRow(ToStoreRow(t)) == t
  {
  }

  /** `data.map(...)`: one view row per store row, same order, fields renamed. */
  function FormatRows(data: seq<StoreRow>): (rows: seq<TarifaRow>)
    ensures |rows| == |data|
    ensures forall i :: 0 <= i < |data| ==>
      && rows[i].id == data[i].id
      && rows[i].origen == data[i].origen
      && rows[i].cargaDescarga == data[i].carga_descarga
      && rows[i].rabon == data[i].rabon
      && rows[i].sencillo == data[i].sencillo
      && rows[i].sencilloSobrepeso == data[i].sencillo_sobrepeso
      && rows[i].full == data[i].precio_full
      && rows[i].fullSobrepeso == data[i].full_sobrepeso
    decreases |data|
  {
    if |data| == 0 then []
    else [FromStoreRow(data[0])] + FormatRows(data[1..])
  }

  // ---------------------------------------------------------------------------
  // Fetching

  /**
   * What the store call yields: `{ data, error }`, or an exception thrown
   * while awaiting it or while mapping the rows.
   */
  datatype FetchResponse =
    | Response(data: Option<seq<StoreRow>>, error: Option<string>)
    | Threw

  datatype PageState = PageState(tarifas: seq<TarifaRow>, loading: bool, selectedBase: string)

  /** The state the page mounts with. */
  const Initial: PageState := PageState([], true, AllBases)

  /** `setLoading(true)` at the start of `fetchTarifas`. */
  function BeginFetch(s: PageState): (s': PageState)
    ensures s'.loading
    ensures s'.tarifas == s.tarifas && s'.selectedBase == s.selectedBase
  {
    s.(loading := true)
  }

  /** The outcome of `fetchTarifas` once the store call has resolved. */
  function ApplyFetch(s: PageState, resp: FetchResponse): (s': PageState)
    ensures !s'.loading
    ensures s'.selectedBase == s.selectedBase
    ensures (resp.Threw? || resp.error.Some? || resp.data.None?) ==> s'.tarifas == s.tarifas
    ensures resp.Response? && resp.error.None? && resp.data.Some? ==>
      s'.tarifas == FormatRows(resp.data.value)
  {
    match resp
    case Threw => s.(loading := false)
    case Response(data, error) =>
      if error.Some? then s.(loading := false)
      else if data.Some? then s.(tarifas := FormatRows(data.value), loading := false)
      else s.(loading := false)
  }

  /** The `<select>`'s `onChange`. */
  function SelectBase(s: PageState, base: string): (s': PageState)
    ensures s'.selectedBase == base
    ensures s'.tarifas == s.tarifas && s'.loading == s.loading
  {
    s.(selectedBase := base)
  }

  // ---------------------------------------------------------------------------
  // Filter options

  function Origins(ts: seq<TarifaRow>): (os: seq<string>)
    ensures |os| == |ts|
    ensures forall i :: 0 <= i < |ts| ==> os[i] == ts[i].origen
  {
    seq(|ts|, i requires 0 <= i < |ts| => ts[i].origen)
  }

  predicate NoDuplicates(s: seq<string>) {
    forall i, j :: 0 <= i < j < |s| ==> s[i] != s[j]
  }

  /**
   * `Array.from(new Set(s))`: each value once, in the order of its first
   * occurrence (a Set iterates in insertion order, and re-inserting a member
   * does not move it).
   */
  function Distinct(s: seq<string>): (r: seq<string>)
    ensures NoDuplicates(r)
    ensures forall x :: x in r <==> x in s
    ensures |r| <= |s|
    decreases |s|
  {
    if |s| == 0 then []
    else
      var d := Distinct(s[..|s| - 1]);
      assert s == s[..|s| - 1] + [s[|s| - 1]];
      if s[|s| - 1] in d then d else d + [s[|s| - 1]]
  }

  /** The position of the first occurrence of `x` in `s`. */
  function FirstIndex(s: seq<string>, x: string): (k: nat)
    requires x in s
    ensures k < |s| && s[k] == x && x !in s[..k]
    decreases |s|
  {
    if s[0] == x then 0
    else
      assert x in s[1..];
      var k := FirstIndex(s[1..], x);
      assert s[..k + 1] == [s[0]] + s[1..][..k];
      k + 1
  }

  /** Every value of `d` occurs in `s`, and `d` lists them by their first occurrence in `s`. */
  predicate InFirstSeenOrder(d: seq<string>, s: seq<string>) {
    && (forall x :: x in d ==> x in s)
    && (forall i, j :: 0 <= i < j < |d| ==> FirstIndex(s, d[i]) < FirstIndex(s, d[j]))
  }

  /** One step of the induction below: appending a value keeps the order. */
  lemma DistinctSnocOrder(p: seq<string>, y: string)
    requires InFirstSeenOrder(Distinct(p), p)
    ensures InFirstSeenOrder(Distinct(p + [y]), p + [y])
  {
  }

  /** The distinct values come in the order of their first occurrence. */
  lemma {:induction false} DistinctFirstSeenOrder(s: seq<string>)
    ensures InFirstSeenOrder(Distinct(s), s)
    decreases |s|
  {
    if |s| > 0 {
      var p := s[..|s| - 1];
      DistinctFirstSeenOrder(p);
      DistinctSnocOrder(p, s[|s| - 1]);
      assert p + [s[|s| - 1]] == s;
    }
  }

  /** The filter options: the sentinel, then each origin once, in first-seen order. */
  function Bases(ts: seq<TarifaRow>): (bases: seq<string>)
    ensures |bases| >= 1 && bases[0] == AllBases
    ensures NoDuplicates(bases[1..])
    ensures forall o :: o in bases[1..] <==> exists i :: 0 <= i < |ts| && ts[i].origen == o
    ensures |ts| == 0 ==> bases == [AllBases]
  {
    var os := Origins(ts);
    assert forall o :: o in os <==> exists i :: 0 <= i < |ts| && ts[i].origen == o by {
      forall o | o in os
        ensures exists i :: 0 <= i < |ts| && ts[i].origen == o
      {
        var i :| 0 <= i < |os| && os[i] == o;
      }
    }
    [AllBases] + Distinct(os)
  }

  /** After the sentinel, the options follow the first appearance of each origin in the rows. */
  lemma BasesFirstSeenOrder(ts: seq<TarifaRow>)
    ensures var b := Bases(ts);
            forall i, j :: 1 <= i < j < |b| ==>
              FirstIndex(Origins(ts), b[i]) < FirstIndex(Origins(ts), b[j])
  {
    var b := Bases(ts);
    var d := Distinct(Origins(ts));
    DistinctFirstSeenOrder(Origins(ts));
    forall i, j | 1 <= i < j < |b|
      ensures FirstIndex(Origins(ts), b[i]) < FirstIndex(Origins(ts), b[j])
    {
      assert b[i] == d[i - 1] && b[j] == d[j - 1];
    }
  }

  /**
   * The Set-based computation the page performs, one row at a time; it
   * produces exactly the filter options `Bases` describes.
   */
  method ComputeBases(ts: seq<TarifaRow>) returns (bases: seq<string>)
    ensures bases == Bases(ts)
  {
    var seen: set<string> := {};
    var unique: seq<string> := [];
    for i := 0 to |ts|
      invariant unique == Distinct(Origins(ts)[..i])
      invariant forall x :: x in seen <==> x in unique
    {
      var o := ts[i].origen;
      assert Origins(ts)[..i + 1] == Origins(ts)[..i] + [o];
      assert Origins(ts)[..i + 1][..i] == Origins(ts)[..i];
      if o !in seen {
        seen := seen + {o};
        unique := unique + [o];
      }
    }
    assert Origins(ts)[..|ts|] == Origins(ts);
    bases := [AllBases] + unique;
  }

  // ---------------------------------------------------------------------------
  // Filtered rows

  /** `tarifas.filter((t) => t.origen === origin)` */
  function FilterByOrigin(ts: seq<TarifaRow>, origin: string): (r: seq<TarifaRow>)
    ensures |r| <= |ts|
    ensures forall t :: t in r <==> t in ts && t.origen == origin
    decreases |ts|
  {
    if |ts| == 0 then []
    else
      var f := FilterByOrigin(ts[..|ts| - 1], origin);
      assert ts == ts[..|ts| - 1] + [ts[|ts| - 1]];
      if ts[|ts| - 1].origen == origin then f + [ts[|ts| - 1]] else f
  }

  /** The positions of the rows with the given origin, in increasing order. */
  function MatchingPositions(ts: seq<TarifaRow>, origin: string): seq<nat>
    decreases |ts|
  {
    if |ts| == 0 then []
    else
      var p := MatchingPositions(ts[..|ts| - 1], origin);
      if ts[|ts| - 1].origen == origin then p + [|ts| - 1] else p
  }

  /** The k-th filtered row is the row at the k-th matching position. */
  lemma {:induction false} FilterFollowsPositions(ts: seq<TarifaRow>, origin: string)
    ensures var r, p := FilterByOrigin(ts, origin), MatchingPositions(ts, origin);
            |r| == |p| && forall k :: 0 <= k < |p| ==> p[k] < |ts| && r[k] == ts[p[k]]
    decreases |ts|
  {
    if |ts| > 0 {
      var q := ts[..|ts| - 1];
      FilterFollowsPositions(q, origin);
      var r, p := FilterByOrigin(ts, origin), MatchingPositions(ts, origin);
      var rq, pq := FilterByOrigin(q, origin), MatchingPositions(q, origin);
      forall k | 0 <= k < |p|
        ensures p[k] < |ts| && r[k] == ts[p[k]]
      {
        if k < |pq| {
          assert p[k] == pq[k] && r[k] == rq[k];
          assert q[pq[k]] == ts[pq[k]];
        }
      }
    }
  }

  /** The matching positions are strictly increasing and are exactly the positions of matching rows. */
  lemma {:induction false} MatchingPositionsExact(ts: seq<TarifaRow>, origin: string)
    ensures var p := MatchingPositions(ts, origin);
            && (forall k :: 0 <= k < |p| ==> p[k] < |ts|)
            && (forall k, l :: 0 <= k < l < |p| ==> p[k] < p[l])
            && (forall i :: 0 <= i < |ts| ==> (i in p <==> ts[i].origen == origin))
    decreases |ts|
  {
    if |ts| > 0 {
      var q := ts[..|ts| - 1];
      MatchingPositionsExact(q, origin);
      var p, pq := MatchingPositions(ts, origin), MatchingPositions(q, origin);
      assert forall i :: 0 <= i < |q| ==> q[i] == ts[i];
      assert |ts| - 1 !in pq;
      forall i | 0 <= i < |ts|
        ensures i in p <==> ts[i].origen == origin
      {
        if i < |q| {
          assert i in p <==> i in pq;
        }
      }
    }
  }

  /** `filteredTarifas` */
  function FilteredTarifas(ts: seq<TarifaRow>, selected: string): (r: seq<TarifaRow>)
    ensures selected == AllBases ==> r == ts
    ensures selected != AllBases ==> forall i :: 0 <= i < |r| ==> r[i].origen == selected
    ensures selected != AllBases ==> forall t :: t in r <==> t in ts && t.origen == selected
    ensures selected != AllBases && (forall i :: 0 <= i < |ts| ==> ts[i].origen != selected) ==> r == []
  {
    if selected == AllBases then ts
    else
      var r := FilterByOrigin(ts, selected);
      assert forall i :: 0 <= i < |r| ==> r[i] in r;
      assert |r| > 0 ==> r[0] in ts;
      r
  }

  /** Filtering the filtered rows by the same selection changes nothing. */
  lemma {:induction false} FilterIdempotent(ts: seq<TarifaRow>, origin: string)
    ensures FilterByOrigin(FilterByOrigin(ts, origin), origin) == FilterByOrigin(ts, origin)
    decreases |ts|
  {
    if |ts| > 0 {
      var q := ts[..|ts| - 1];
      var f := FilterByOrigin(q, origin);
      FilterIdempotent(q, origin);
      if ts[|ts| - 1].origen == origin {
        var g := f + [ts[|ts| - 1]];
        assert g[..|g| - 1] == f;
      }
    }
  }

  /** The same for the page's derived view, whatever the selection. */
  lemma FilteredTarifasIdempotent(ts: seq<TarifaRow>, selected: string)
    ensures FilteredTarifas(FilteredTarifas(ts, selected), selected) == FilteredTarifas(ts, selected)
  {
    if selected != AllBases {
      FilterIdempotent(ts, selected);
    }
  }

  /** Every option the filter offers beyond "Todas" selects at least one row. */
  lemma EveryOfferedBaseSelectsRows(ts: seq<TarifaRow>, base: string)
    requires base in Bases(ts)[1..]
    ensures |FilteredTarifas(ts, base)| > 0
  {
  }

  /** The rows the table lists in a given state: none while the spinner shows, else the filtered rows. */
  function VisibleRows(s: PageState): (rows: seq<TarifaRow>)
    ensures s.loading ==> rows == []
    ensures !s.loading && s.selectedBase == AllBases ==> rows == s.tarifas
    ensures !s.loading && s.selectedBase != AllBases ==>
      forall t :: t in rows <==> t in s.tarifas && t.origen == s.selectedBase
  {
    if s.loading then [] else FilteredTarifas(s.tarifas, s.selectedBase)
  }

  /** The page mounts showing the spinner, no rows and only the "Todas" option. */
  lemma InitialShowsSpinnerOnly()
    ensures Initial.loading && VisibleRows(Initial) == [] && Bases(Initial.tarifas) == [AllBases]
    ensures Initial.selectedBase == AllBases
  {
  }

  /** A first load that fails leaves the page showing no rows and not loading. */
  lemma FailedFirstLoadShowsNothing(resp: FetchResponse)
    requires resp.Threw? || resp.error.Some? || resp.data.None?
    ensures var s := ApplyFetch(BeginFetch(Initial), resp);
            VisibleRows(s) == [] && !s.loading && Bases(s.tarifas) == [AllBases]
  {
  }
}
