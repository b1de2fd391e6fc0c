/**
 * The generic `DataTable` component: its four pieces of view state, the derived
 * filtered / sorted / paginated views and the event handlers that change the state.
 */
module Table {
  import opened Wrappers
  import opened Text
  import opened Seqs

  // ---------------------------------------------------------------------------
  // Field values and their order
  // ---------------------------------------------------------------------------

  /** A record field: absent (`undefined`), `null`, a number or a string. */
  datatype Value = Missing | Null | Num(n: int) | Str(s: string)

  /** `String(value)`. */
  function ToDisplay(v: Value): (r: string)
    ensures v.Str? ==> r == v.s
    ensures v.Num? && v.n >= 0 ==> r != "" && AllDigits(r)
    ensures v.Num? && v.n < 0 ==> |r| >= 2 && r[0] == '-' && AllDigits(r[1..])
    ensures v.Num? ==> r == IntToString(v.n)
    ensures v.Missing? ==> r == "undefined"
    ensures v.Null? ==> r == "null"
  {
    match v
    case Missing => "undefined"
    case Null => "null"
    case Num(n) => IntToString(n)
    case Str(s) => s
  }

  /** Lexicographic order on strings, by character. */
  predicate StrLess(a: string, b: string)
    decreases |a|
  {
    if a == [] then b != []
    else if b == [] then false
    else if a[0] != b[0] then a[0] < b[0]
    else StrLess(a[1..], b[1..])
  }

  function Rank(v: Value): nat {
    match v
    case Missing => 0
    case Null => 1
    case Num(_) => 2
    case Str(_) => 3
  }

  /** The `<` the sort comparator uses: numbers numerically, strings lexicographically. */
  predicate Less(a: Value, b: Value) {
    if Rank(a) != Rank(b) then Rank(a) < Rank(b)
    else match a
      case Num(x) => x < b.n
      case Str(x) => StrLess(x, b.s)
      case _ => false
  }

  lemma {:induction false} StrLessIrreflexive(a: string)
    ensures !StrLess(a, a)
    decreases |a|
  {
    if a != [] {
      StrLessIrreflexive(a[1..]);
    }
  }

  lemma {:induction false} StrLessTransitive(a: string, b: string, c: string)
    requires StrLess(a, b) && StrLess(b, c)
    ensures StrLess(a, c)
    decreases |a|
  {
    if a != [] && a[0] == b[0] && b[0] == c[0] {
      StrLessTransitive(a[1..], b[1..], c[1..]);
    }
  }

  lemma {:induction false} StrLessTotal(a: string, b: string)
    requires a != b
    ensures StrLess(a, b) || StrLess(b, a)
    decreases |a|
  {
    if a != [] && b != [] && a[0] == b[0] {
      assert a == [a[0]] + a[1..] && b == [b[0]] + b[1..];
      StrLessTotal(a[1..], b[1..]);
    }
  }

  /** `Less` is a strict total order. */
  lemma LessIsStrictTotalOrder(a: Value, b: Value, c: Value)
    ensures !Less(a, a)
    ensures Less(a, b) && Less(b, c) ==> Less(a, c)
    ensures a != b ==> Less(a, b) || Less(b, a)
  {
    if a.Str? {
      StrLessIrreflexive(a.s);
      if b.Str? && c.Str? && StrLess(a.s, b.s) && StrLess(b.s, c.s) {
        StrLessTransitive(a.s, b.s, c.s);
      }
      if b.Str? && a != b {
        StrLessTotal(a.s, b.s);
      }
    }
  }

  // ---------------------------------------------------------------------------
  // Records and columns
  // ---------------------------------------------------------------------------

  /** A record of `data`; `selectedRows.includes(row)` compares records by identity. */
  class Row {
    const fields: map<string, Value>

    constructor (fields: map<string, Value>)
      ensures this.fields == fields
    {
      this.fields := fields;
    }
  }

  /** `record[key]`. */
  function Field(r: Row, key: string): (v: Value)
    ensures key !in r.fields ==> v == Missing
    ensures key in r.fields ==> v == r.fields[key]
  {
    if key in r.fields then r.fields[key] else Missing
  }

  /** A column; `render` is abstracted to a function producing the displayed text. */
  datatype Column = Column(key: string, title: string, render: Option<(Value, Row) -> string>, sortable: bool)

  /** `getValue`: the rendered text when the column has `render`, the raw field otherwise. */
  function GetValue(c: Column, r: Row): (v: Value)
    ensures c.render.Some? ==> v == Str(c.render.value(Field(r, c.key), r))
    ensures c.render.None? ==> v == Field(r, c.key)
  {
    match c.render
    case Some(f) => Str(f(Field(r, c.key), r))
    case None => Field(r, c.key)
  }

  // ---------------------------------------------------------------------------
  // Filtering
  // ---------------------------------------------------------------------------

  /** `String(value).toLowerCase().includes(searchTerm.toLowerCase())`. */
  predicate ColumnMatches(c: Column, term: string, r: Row) {
    Contains(ToLower(ToDisplay(GetValue(c, r))), ToLower(term))
  }

  /** `columns.some(...)`. */
  predicate RowMatches(columns: seq<Column>, term: string, r: Row) {
    exists i :: 0 <= i < |columns| && ColumnMatches(columns[i], term, r)
  }

  /** `filteredData`: all of `data` for an empty term, else the records with a matching column. */
  function FilteredData(data: seq<Row>, columns: seq<Column>, term: string): (r: seq<Row>)
    ensures term == "" ==> r == data
    ensures term != "" ==> IsSubsequence(r, data)
    ensures term != "" ==> forall i :: 0 <= i < |r| ==> RowMatches(columns, term, r[i])
    ensures forall i :: 0 <= i < |data| && RowMatches(columns, term, data[i]) ==> data[i] in r
    ensures forall i :: 0 <= i < |r| ==> r[i] in data
    ensures term != "" ==> forall i :: 0 <= i < |data| ==>
      multiset(r)[data[i]] == if RowMatches(columns, term, data[i]) then multiset(data)[data[i]] else 0
  {
    if term == "" then data
    else
      KeepCounts(data, (row: Row) => RowMatches(columns, term, row));
      Keep(data, (row: Row) => RowMatches(columns, term, row))
  }

  /** A record is dropped by a non-empty term exactly when none of its columns matches. */
  lemma FilterDropsNonMatching(data: seq<Row>, columns: seq<Column>, term: string, r: Row)
    requires term != "" && r in data
    ensures r in FilteredData(data, columns, term) <==> RowMatches(columns, term, r)
  {
  }

  // ---------------------------------------------------------------------------
  // Sorting
  // ---------------------------------------------------------------------------

  datatype Direction = Asc | Desc
  datatype SortConfig = SortConfig(key: string, direction: Direction)

  /** The comparator returns a negative number for `a` against `b`. */
  predicate Before(a: Row, b: Row, cfg: SortConfig) {
    if cfg.direction == Asc then Less(Field(a, cfg.key), Field(b, cfg.key))
    else Less(Field(b, cfg.key), Field(a, cfg.key))
  }

  lemma LessAsymmetric(x: Value, y: Value)
    requires Less(x, y)
    ensures !Less(y, x)
  {
    LessIsStrictTotalOrder(x, y, x);
  }

  /** Not-greater-than is transitive. */
  lemma LessNegativelyTransitive(x: Value, y: Value, z: Value)
    requires !Less(y, x) && !Less(z, y)
    ensures !Less(z, x)
  {
    LessIsStrictTotalOrder(x, y, z);
    LessIsStrictTotalOrder(y, z, x);
    if Less(z, x) {
      LessIsStrictTotalOrder(z, x, z);
    }
  }

  lemma BeforeFacts(a: Row, b: Row, c: Row, cfg: SortConfig)
    ensures Before(a, b, cfg) ==> Field(a, cfg.key) != Field(b, cfg.key)
    ensures Before(a, b, cfg) ==> !Before(b, a, cfg)
    ensures !Before(b, a, cfg) && !Before(c, b, cfg) ==> !Before(c, a, cfg)
  {
    var x, y, z := Field(a, cfg.key), Field(b, cfg.key), Field(c, cfg.key);
    LessIsStrictTotalOrder(x, y, z);
    if Before(a, b, cfg) {
      if cfg.direction == Asc { LessAsymmetric(x, y); } else { LessAsymmetric(y, x); }
    }
    if !Before(b, a, cfg) && !Before(c, b, cfg) {
      if cfg.direction == Asc { LessNegativelyTransitive(x, y, z); } else { LessNegativelyTransitive(z, y, x); }
    }
  }

  /** No record is strictly after a later one. */
  predicate SortedBy(s: seq<Row>, cfg: SortConfig) {
    forall i, j :: 0 <= i < j < |s| ==> !Before(s[j], s[i], cfg)
  }

  /** The records whose sort field has the value `v`. */
  function HasKey(key: string, v: Value): Row -> bool {
    (row: Row) => Field(row, key) == v
  }

  /** Puts `x` before the first record that does not sort strictly before it. */
  function Insert(x: Row, s: seq<Row>, cfg: SortConfig): (r: seq<Row>)
    ensures multiset(r) == multiset(s) + multiset{x}
    decreases |s|
  {
    if s == [] || !Before(s[0], x, cfg) then [x] + s
    else
      assert s == [s[0]] + s[1..];
      [s[0]] + Insert(x, s[1..], cfg)
  }

  /** A stable insertion sort: the order `Array.prototype.sort` produces. */
  function SortRows(s: seq<Row>, cfg: SortConfig): seq<Row>
    decreases |s|
  {
    if s == [] then [] else Insert(s[0], SortRows(s[1..], cfg), cfg)
  }

  lemma {:induction false} SortRowsPermutes(s: seq<Row>, cfg: SortConfig)
    ensures multiset(SortRows(s, cfg)) == multiset(s)
    decreases |s|
  {
    if s != [] {
      SortRowsPermutes(s[1..], cfg);
      assert s == [s[0]] + s[1..];
    }
  }

  lemma SortedCons(a: Row, t: seq<Row>, cfg: SortConfig)
    requires SortedBy(t, cfg)
    requires forall k :: 0 <= k < |t| ==> !Before(t[k], a, cfg)
    ensures SortedBy([a] + t, cfg)
  {
    var s := [a] + t;
    forall i, j | 0 <= i < j < |s|
      ensures !Before(s[j], s[i], cfg)
    {
      assert s[j] == t[j - 1];
      if i > 0 {
        assert s[i] == t[i - 1];
      }
    }
  }

  lemma {:induction false} InsertNotBefore(x: Row, s: seq<Row>, y: Row, cfg: SortConfig)
    requires forall k :: 0 <= k < |s| ==> !Before(s[k], y, cfg)
    requires !Before(x, y, cfg)
    ensures forall k :: 0 <= k < |Insert(x, s, cfg)| ==> !Before(Insert(x, s, cfg)[k], y, cfg)
    decreases |s|
  {
    var r := Insert(x, s, cfg);
    if s == [] || !Before(s[0], x, cfg) {
      assert r == [x] + s;
      forall k | 0 < k < |r|
        ensures !Before(r[k], y, cfg)
      {
        assert r[k] == s[k - 1];
      }
    } else {
      var t := Insert(x, s[1..], cfg);
      assert r == [s[0]] + t;
      InsertNotBefore(x, s[1..], y, cfg);
      forall k | 0 < k < |r|
        ensures !Before(r[k], y, cfg)
      {
        assert r[k] == t[k - 1];
      }
    }
  }

  lemma {:induction false} InsertSorted(x: Row, s: seq<Row>, cfg: SortConfig)
    requires SortedBy(s, cfg)
    ensures SortedBy(Insert(x, s, cfg), cfg)
    decreases |s|
  {
    if s == [] {
    } else if !Before(s[0], x, cfg) {
      forall k | 0 <= k < |s|
        ensures !Before(s[k], x, cfg)
      {
        BeforeFacts(x, s[0], s[k], cfg);
      }
      SortedCons(x, s, cfg);
    } else {
      var t := Insert(x, s[1..], cfg);
      assert SortedBy(s[1..], cfg) by {
        forall i, j | 0 <= i < j < |s[1..]|
          ensures !Before(s[1..][j], s[1..][i], cfg)
        {
          assert s[1..][j] == s[j + 1] && s[1..][i] == s[i + 1];
        }
      }
      InsertSorted(x, s[1..], cfg);
      BeforeFacts(s[0], x, x, cfg);
      forall k | 0 <= k < |s[1..]|
        ensures !Before(s[1..][k], s[0], cfg)
      {
        assert s[1..][k] == s[k + 1];
      }
      InsertNotBefore(x, s[1..], s[0], cfg);
      SortedCons(s[0], t, cfg);
    }
  }

  lemma {:induction false} SortRowsSorted(s: seq<Row>, cfg: SortConfig)
    ensures SortedBy(SortRows(s, cfg), cfg)
    decreases |s|
  {
    if s != [] {
      SortRowsSorted(s[1..], cfg);
      InsertSorted(s[0], SortRows(s[1..], cfg), cfg);
    }
  }

  lemma {:induction false} InsertKeep(x: Row, s: seq<Row>, cfg: SortConfig, v: Value)
    ensures Keep(Insert(x, s, cfg), HasKey(cfg.key, v)) == (if Field(x, cfg.key) == v then [x] else []) + Keep(s, HasKey(cfg.key, v))
    decreases |s|
  {
    var p := HasKey(cfg.key, v);
    if s == [] || !Before(s[0], x, cfg) {
      KeepCons(x, s, p);
    } else {
      var t := Insert(x, s[1..], cfg);
      assert Insert(x, s, cfg) == [s[0]] + t;
      BeforeFacts(s[0], x, x, cfg);
      InsertKeep(x, s[1..], cfg, v);
      KeepPastOther(s[0], x, t, s[1..], p);
      assert s == [s[0]] + s[1..];
    }
  }

  /** Records with equal sort fields keep their relative order. */
  lemma {:induction false} SortRowsStable(s: seq<Row>, cfg: SortConfig, v: Value)
    ensures Keep(SortRows(s, cfg), HasKey(cfg.key, v)) == Keep(s, HasKey(cfg.key, v))
    decreases |s|
  {
    var p := HasKey(cfg.key, v);
    if s != [] {
      SortRowsStable(s[1..], cfg, v);
      InsertKeep(s[0], SortRows(s[1..], cfg), cfg, v);
      assert s == [s[0]] + s[1..];
      KeepCons(s[0], s[1..], p);
    }
  }

  /**
   * `sortedData`: the filtered view itself without a sort, else a sorted, stable
   * permutation of a copy of it.
   */
  function SortedData(filtered: seq<Row>, sortConfig: Option<SortConfig>): (r: seq<Row>)
    ensures sortConfig.None? ==> r == filtered
    ensures multiset(r) == multiset(filtered)
    ensures sortConfig.Some? ==> SortedBy(r, sortConfig.value)
    ensures sortConfig.Some? ==> forall v :: Keep(r, HasKey(sortConfig.value.key, v)) == Keep(filtered, HasKey(sortConfig.value.key, v))
  {
    match sortConfig
    case None => filtered
    case Some(cfg) =>
      SortRowsPermutes(filtered, cfg);
      SortRowsSorted(filtered, cfg);
      forall v ensures Keep(SortRows(filtered, cfg), HasKey(cfg.key, v)) == Keep(filtered, HasKey(cfg.key, v)) {
        SortRowsStable(filtered, cfg, v);
      }
      SortRows(filtered, cfg)
  }

  // ---------------------------------------------------------------------------
  // Pagination
  // ---------------------------------------------------------------------------

  /** `s.slice(start, end)` for non-negative bounds. */
  function Slice(s: seq<Row>, start: nat, end: nat): (r: seq<Row>)
    ensures start <= end ==> |r| <= end - start
    ensures start <= end <= |s| ==> r == s[start..end]
    ensures |s| <= start ==> r == []
  {
    var lo := if start <= |s| then start else |s|;
    var hi := if end <= |s| then end else |s|;
    if lo <= hi then s[lo..hi] else []
  }

  /** `paginatedData`: page `page` (from 1) of `pageSize` records, or everything without pagination. */
  function PaginatedData(sorted: seq<Row>, pagination: bool, page: int, pageSize: int): (r: seq<Row>)
    requires page >= 1 && pageSize > 0
    ensures !pagination ==> r == sorted
    ensures pagination ==> |r| <= pageSize
    ensures pagination && page * pageSize <= |sorted| ==> r == sorted[(page - 1) * pageSize .. page * pageSize]
    ensures pagination && (page - 1) * pageSize <= |sorted| < page * pageSize ==> r == sorted[(page - 1) * pageSize..]
    ensures pagination && |sorted| <= (page - 1) * pageSize ==> r == []
  {
    if !pagination then sorted
    else Slice(sorted, (page - 1) * pageSize, (page - 1) * pageSize + pageSize)
  }

  /** `Math.ceil(length / pageSize)`: 0 when there is nothing to show, never clamped to 1. */
  function TotalPages(length: nat, pageSize: int): (t: nat)
    requires pageSize > 0
    ensures length == 0 <==> t == 0
    ensures (t - 1) * pageSize < length <= t * pageSize || (t == 0 && length == 0)
  {
    (length + pageSize - 1) / pageSize
  }

  /** Two or more pages means more records than one page holds. */
  lemma MoreThanOnePage(length: nat, pageSize: int)
    requires pageSize > 0
    ensures TotalPages(length, pageSize) > 1 ==> length > pageSize
  {
    var t := TotalPages(length, pageSize);
    if t > 1 {
      assert (t - 1) * pageSize >= pageSize;
    }
  }

  /** The pages `1..k` one after another. */
  function Pages(sorted: seq<Row>, pageSize: int, k: nat): seq<Row>
    requires pageSize > 0
  {
    if k == 0 then [] else Pages(sorted, pageSize, k - 1) + PaginatedData(sorted, true, k, pageSize)
  }

  lemma {:induction false} PagesPrefix(sorted: seq<Row>, pageSize: int, k: nat)
    requires pageSize > 0
    ensures Pages(sorted, pageSize, k) == sorted[..if k * pageSize <= |sorted| then k * pageSize else |sorted|]
  {
    if k > 0 {
      PagesPrefix(sorted, pageSize, k - 1);
      var lo := (k - 1) * pageSize;
      if lo <= |sorted| {
        var hi := if k * pageSize <= |sorted| then k * pageSize else |sorted|;
        assert sorted[..hi] == sorted[..lo] + sorted[lo..hi];
      }
    }
  }

  /** Pages `1..totalPages` together are exactly the sorted view, each record once, in order. */
  lemma AllPagesCoverSorted(sorted: seq<Row>, pageSize: int)
    requires pageSize > 0
    ensures Pages(sorted, pageSize, TotalPages(|sorted|, pageSize)) == sorted
  {
    PagesPrefix(sorted, pageSize, TotalPages(|sorted|, pageSize));
  }

  /** A page past the last one, which the search can leave `currentPage` on, shows nothing. */
  lemma PageBeyondLastIsEmpty(sorted: seq<Row>, pageSize: int, page: int)
    requires pageSize > 0 && page > TotalPages(|sorted|, pageSize) && page >= 1
    ensures PaginatedData(sorted, true, page, pageSize) == []
  {
    var t := TotalPages(|sorted|, pageSize);
    assert t * pageSize >= |sorted|;
    assert (page - 1) * pageSize >= t * pageSize;
  }

  /** The numbered buttons: pages 1 to `min(15, totalPages)`. */
  function PageButtons(totalPages: nat): (r: seq<nat>)
    ensures |r| == if totalPages < 15 then totalPages else 15
    ensures forall i :: 0 <= i < |r| ==> r[i] == i + 1 && 1 <= r[i] <= totalPages
  {
    var n := if totalPages < 15 then totalPages else 15;
    seq(n, i requires 0 <= i < n => i + 1)
  }

  /** "Previous": `Math.max(prev - 1, 1)`. */
  function PreviousPage(current: int): (p: int)
    ensures p >= 1
    ensures current > 1 ==> p == current - 1
    ensures current <= 1 ==> p == 1
  {
    if current - 1 > 1 then current - 1 else 1
  }

  /** "Next": `Math.min(prev + 1, totalPages)`. */
  function NextPage(current: int, totalPages: nat): (p: int)
    ensures p <= totalPages
    ensures current < totalPages ==> p == current + 1
    ensures current >= totalPages ==> p == totalPages
  {
    if current + 1 < totalPages then current + 1 else totalPages
  }

  // ---------------------------------------------------------------------------
  // Header and selection decisions
  // ---------------------------------------------------------------------------

  /** The narrow-screen header: titles over 8 characters keep 8 and get "...". */
  function TruncateTitle(title: string): (r: string)
    ensures |title| <= 8 ==> r == title
    ensures |title| > 8 ==> |r| == 11 && r[..8] == title[..8] && r[8..] == "..."
  {
    if |title| > 8 then title[..8] + "..." else title
  }

  /** `handleSort`: active ascending becomes descending, active descending becomes no sort, any other key ascending. */
  function NextSort(current: Option<SortConfig>, key: string): (r: Option<SortConfig>)
    ensures current == Some(SortConfig(key, Asc)) ==> r == Some(SortConfig(key, Desc))
    ensures current == Some(SortConfig(key, Desc)) ==> r == None
    ensures (current.None? || current.value.key != key) ==> r == Some(SortConfig(key, Asc))
  {
    if current.Some? && current.value.key == key then
      if current.value.direction == Asc then Some(SortConfig(key, Desc)) else None
    else Some(SortConfig(key, Asc))
  }

  /** Three clicks on a header that is not the active one return to no sort. */
  lemma ThreeClicksClearSort(current: Option<SortConfig>, key: string)
    requires current.None? || current.value.key != key
    ensures NextSort(current, key) == Some(SortConfig(key, Asc))
    ensures NextSort(NextSort(current, key), key) == Some(SortConfig(key, Desc))
    ensures NextSort(NextSort(NextSort(current, key), key), key) == None
  {
  }

  /** `handleSelectRow`: remove the record (by identity) if selected, else append it. */
  function ToggleRow(selected: seq<Row>, row: Row): (r: seq<Row>)
    ensures row in selected ==> row !in r
    ensures row in selected ==> forall i :: 0 <= i < |r| ==> r[i] in selected
    ensures row in selected ==> forall i :: 0 <= i < |selected| && selected[i] != row ==> selected[i] in r
    ensures row in selected ==> IsSubsequence(r, selected) && multiset(r) == multiset(selected)[row := 0]
    ensures row !in selected ==> r == selected + [row]
  {
    if row in selected then
      KeepCounts(selected, (x: Row) => x != row);
      Keep(selected, (x: Row) => x != row)
    else selected + [row]
  }

  /** Toggling a record that was not selected twice restores the selection. */
  lemma ToggleRowTwice(selected: seq<Row>, row: Row)
    requires row !in selected
    ensures ToggleRow(ToggleRow(selected, row), row) == selected
  {
    var s := selected + [row];
    var p := (x: Row) => x != row;
    KeepAppend(selected, [row], p);
    KeepAll(selected, p);
    assert Keep([row], p) == [] by {
      assert [row][1..] == [];
    }
  }

  /** `handleSelectAll`: clear when the lengths agree, else select the whole page. */
  function SelectAllNext(selected: seq<Row>, page: seq<Row>): (r: seq<Row>)
    ensures |selected| == |page| ==> r == []
    ensures |selected| != |page| ==> r == page
  {
    if |selected| == |page| then [] else page
  }

  /** The header checkbox. */
  predicate HeaderChecked(selected: seq<Row>, page: seq<Row>): (checked: bool)
    ensures checked ==> page != [] && SelectAllNext(selected, page) == []
  {
    |selected| == |page| && |page| > 0
  }

  /** After "select all" the header box is checked exactly when the page is not empty and was not fully selected. */
  lemma SelectAllChecks(selected: seq<Row>, page: seq<Row>)
    ensures HeaderChecked(SelectAllNext(selected, page), page) <==> |selected| != |page| && |page| > 0
  {
  }

  /** The lengths alone decide: a selection of other records with the page's length is cleared. */
  lemma SelectAllComparesLengthsOnly(selected: seq<Row>, page: seq<Row>)
    requires |selected| == |page| && |page| > 0
    ensures SelectAllNext(selected, page) == []
    ensures HeaderChecked(selected, page)
  {
  }

  // ---------------------------------------------------------------------------
  // The component
  // ---------------------------------------------------------------------------

  /** The props that stay fixed; `onRowClick` and `onSelectionChange` only as present or not. */
  datatype Props = Props(
    columns: seq<Column>,
    loading: bool,
    searchable: bool,
    pagination: bool,
    pageSize: int,
    selectable: bool,
    hasRowClick: bool,
    hasSelectionListener: bool)

  class DataTable {
    const props: Props
    var data: seq<Row>
    var searchTerm: string
    var currentPage: int
    var sortConfig: Option<SortConfig>
    var selectedRows: seq<Row>
    /** the arguments of every `onSelectionChange` call */
    var selectionEvents: seq<seq<Row>>
    /** the arguments of every `onRowClick` call */
    var rowClicks: seq<Row>

    ghost predicate Valid()
      reads this
    {
      props.pageSize > 0 && currentPage >= 1
    }

    function Filtered(): seq<Row>
      reads this
    {
      FilteredData(data, props.columns, searchTerm)
    }

    function Sorted(): seq<Row>
      reads this
    {
      SortedData(Filtered(), sortConfig)
    }

    function Page(): seq<Row>
      reads this
      requires Valid()
    {
      PaginatedData(Sorted(), props.pagination, currentPage, props.pageSize)
    }

    function TotalPageCount(): nat
      reads this
      requires Valid()
    {
      TotalPages(|Filtered()|, props.pageSize)
    }

    /** The first render: empty search, page 1, no sort, nothing selected. */
    constructor (props: Props, data: seq<Row>)
      requires props.pageSize > 0
      ensures Valid()
      ensures this.props == props && this.data == data
      ensures searchTerm == "" && currentPage == 1 && sortConfig == None && selectedRows == []
      ensures selectionEvents == [] && rowClicks == []
    {
      this.props := props;
      this.data := data;
      searchTerm := "";
      currentPage := 1;
      sortConfig := None;
      selectedRows := [];
      selectionEvents := [];
      rowClicks := [];
    }

    /** The parent re-renders with new `data`; the view state is kept. */
    method SetData(newData: seq<Row>)
      requires Valid()
      modifies this
      ensures Valid()
      ensures data == newData
      ensures searchTerm == old(searchTerm) && currentPage == old(currentPage) && sortConfig == old(sortConfig)
      ensures selectedRows == old(selectedRows) && selectionEvents == old(selectionEvents) && rowClicks == old(rowClicks)
    {
      data := newData;
    }

    /** Typing in the search box: only the term changes, the current page is not reset. */
    method SetSearchTerm(term: string)
      requires Valid() && props.searchable && !props.loading
      modifies this
      ensures Valid()
      ensures searchTerm == term
      ensures data == old(data) && currentPage == old(currentPage) && sortConfig == old(sortConfig)
      ensures selectedRows == old(selectedRows) && selectionEvents == old(selectionEvents) && rowClicks == old(rowClicks)
    {
      searchTerm := term;
    }

    /** A click on header `i`: cycles the sort only when the column is sortable. */
    method ClickHeader(i: nat)
      requires Valid() && !props.loading && i < |props.columns|
      modifies this
      ensures Valid()
      ensures sortConfig == if props.columns[i].sortable then NextSort(old(sortConfig), props.columns[i].key) else old(sortConfig)
      ensures data == old(data) && searchTerm == old(searchTerm) && currentPage == old(currentPage)
      ensures selectedRows == old(selectedRows) && selectionEvents == old(selectionEvents) && rowClicks == old(rowClicks)
    {
      if props.columns[i].sortable {
        sortConfig := NextSort(sortConfig, props.columns[i].key);
      }
    }

    /** The header checkbox. */
    method SelectAll()
      requires Valid() && props.selectable && !props.loading
      modifies this
      ensures Valid()
      ensures selectedRows == SelectAllNext(old(selectedRows), old(Page()))
      ensures selectionEvents == old(selectionEvents) + if props.hasSelectionListener then [selectedRows] else []
      ensures data == old(data) && searchTerm == old(searchTerm) && currentPage == old(currentPage)
      ensures sortConfig == old(sortConfig) && rowClicks == old(rowClicks)
    {
      var next := SelectAllNext(selectedRows, Page());
      selectedRows := next;
      if props.hasSelectionListener {
        selectionEvents := selectionEvents + [next];
      }
    }

    /** A row's checkbox: toggles that record; the click does not reach the row. */
    method SelectRow(row: Row)
      requires Valid() && props.selectable && !props.loading && row in Page()
      modifies this
      ensures Valid()
      ensures selectedRows == ToggleRow(old(selectedRows), row)
      ensures selectionEvents == old(selectionEvents) + if props.hasSelectionListener then [selectedRows] else []
      ensures data == old(data) && searchTerm == old(searchTerm) && currentPage == old(currentPage)
      ensures sortConfig == old(sortConfig) && rowClicks == old(rowClicks)
    {
      var next := ToggleRow(selectedRows, row);
      selectedRows := next;
      if props.hasSelectionListener {
        selectionEvents := selectionEvents + [next];
      }
    }

    /** A click on a shown row calls `onRowClick` with it, when there is one. */
    method ClickRow(row: Row)
      requires Valid() && !props.loading && row in Page()
      modifies this
      ensures Valid()
      ensures rowClicks == old(rowClicks) + if props.hasRowClick then [row] else []
      ensures data == old(data) && searchTerm == old(searchTerm) && currentPage == old(currentPage)
      ensures sortConfig == old(sortConfig) && selectedRows == old(selectedRows) && selectionEvents == old(selectionEvents)
    {
      if props.hasRowClick {
        rowClicks := rowClicks + [row];
      }
    }

    /** The pager exists only with pagination and more than one page. */
    predicate PagerShown(): (shown: bool)
      reads this
      requires Valid()
      ensures shown ==> props.pagination && |Filtered()| > props.pageSize
      ensures shown ==> PageButtons(TotalPageCount()) != []
    {
      var total := TotalPageCount();
      MoreThanOnePage(|Filtered()|, props.pageSize);
      !props.loading && props.pagination && total > 1
    }

    /** "Previous": never below page 1. */
    method GoPrevious()
      requires Valid() && PagerShown()
      modifies this
      ensures Valid()
      ensures currentPage == PreviousPage(old(currentPage))
      ensures data == old(data) && searchTerm == old(searchTerm) && sortConfig == old(sortConfig)
      ensures selectedRows == old(selectedRows) && selectionEvents == old(selectionEvents) && rowClicks == old(rowClicks)
    {
      currentPage := PreviousPage(currentPage);
    }

    /** "Next": never above the last page. */
    method GoNext()
      requires Valid() && PagerShown()
      modifies this
      ensures Valid()
      ensures currentPage == NextPage(old(currentPage), old(TotalPageCount()))
      ensures currentPage <= TotalPageCount()
      ensures data == old(data) && searchTerm == old(searchTerm) && sortConfig == old(sortConfig)
      ensures selectedRows == old(selectedRows) && selectionEvents == old(selectionEvents) && rowClicks == old(rowClicks)
    {
      currentPage := NextPage(currentPage, TotalPageCount());
    }

    /** A numbered button. */
    method GoToPage(n: nat)
      requires Valid() && PagerShown() && n in PageButtons(TotalPageCount())
      modifies this
      ensures Valid()
      ensures currentPage == n
      ensures data == old(data) && searchTerm == old(searchTerm) && sortConfig == old(sortConfig)
      ensures selectedRows == old(selectedRows) && selectionEvents == old(selectionEvents) && rowClicks == old(rowClicks)
    {
      currentPage := n;
    }
  }
}
