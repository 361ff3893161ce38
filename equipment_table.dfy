/**
 * The server-backed front end's equipment table: search filter, sort on a
 * copy of the rows, pagination in pages of ten, and the four state cells the
 * table's controls update (sort key, sort direction, current page, search).
 *
 * `toLowerCase` and `localeCompare` are parameters: their Unicode and locale
 * behaviour is not modelled.
 */
module EquipmentTable {
  import opened Strings
  import opened Sequences
  import opened Sorting
  import opened EquipmentTypes

  const ItemsPerPage: nat := 10

  /** `keyof EquipmentData`. */
  datatype SortKey = Id | EquipmentName | Type | Flowrate | Pressure | Temperature

  datatype SortDirection = Asc | Desc

  /** `String.prototype.toLowerCase`. */
  type Lower = string -> string

  /** `String.prototype.localeCompare`: negative, zero or positive. */
  type LocaleCompare = (string, string) -> int

  // ---------------------------------------------------------------------------
  // Filter
  // ---------------------------------------------------------------------------

  /** The search test: the lowercased query occurs in the lowercased name or the lowercased type. */
  predicate Matches(item: EquipmentRecord, query: string, lower: Lower)
  {
    Contains(lower(item.equipmentName), lower(query)) || Contains(lower(item.equipmentType), lower(query))
  }

  /** `filteredData`. */
  function FilteredData(data: seq<EquipmentRecord>, query: string, lower: Lower): seq<EquipmentRecord>
  {
    Filter(data, item => Matches(item, query, lower))
  }

  /**
   * The filtered rows are exactly the matching rows of `data`: a row is kept
   * iff it matches, and the result of a concatenation is the concatenation of
   * the results, so the kept rows stay in their order.
   */
  lemma FilteredDataExactly(data: seq<EquipmentRecord>, more: seq<EquipmentRecord>, query: string, lower: Lower)
    ensures forall i :: 0 <= i < |FilteredData(data, query, lower)| ==>
      FilteredData(data, query, lower)[i] in data && Matches(FilteredData(data, query, lower)[i], query, lower)
    ensures forall i :: 0 <= i < |data| && Matches(data[i], query, lower) ==> data[i] in FilteredData(data, query, lower)
    ensures FilteredData(data + more, query, lower) == FilteredData(data, query, lower) + FilteredData(more, query, lower)
    ensures forall x :: FilteredData([x], query, lower) == if Matches(x, query, lower) then [x] else []
  {
    var keep := item => Matches(item, query, lower);
    FilterMembers(data, keep);
    FilterConcat(data, more, keep);
    forall x ensures FilteredData([x], query, lower) == if Matches(x, query, lower) then [x] else [] {
      FilterSingle(x, keep);
    }
  }

  /** An empty search box keeps every row (`''.toLowerCase()` is `''`, which every string contains). */
  lemma EmptyQueryKeepsAll(data: seq<EquipmentRecord>, lower: Lower)
    requires lower("") == ""
    ensures FilteredData(data, "", lower) == data
  {
    forall i | 0 <= i < |data| ensures Matches(data[i], "", lower) {
      ContainsTrivial(lower(data[i].equipmentName));
    }
    FilterKeepsAll(data, item => Matches(item, "", lower));
  }

  // ---------------------------------------------------------------------------
  // Sort
  // ---------------------------------------------------------------------------

  predicate IsNumeric(k: SortKey)
  {
    k.Flowrate? || k.Pressure? || k.Temperature?
  }

  /** The value of a numeric column. */
  function NumberAt(r: EquipmentRecord, k: SortKey): real
    requires IsNumeric(k)
  {
    match k
    case Flowrate => r.flowrate
    case Pressure => r.pressure
    case Temperature => r.temperature
  }

  /** `String(a[sortKey])` for a text column. */
  function TextAt(r: EquipmentRecord, k: SortKey): string
    requires !IsNumeric(k)
  {
    match k
    case Id => r.id
    case EquipmentName => r.equipmentName
    case Type => r.equipmentType
  }

  /**
   * The comparator handed to `sort`: the difference of the numbers for a
   * numeric column (reversed for `desc`), otherwise `localeCompare` of the
   * lowercased texts (arguments swapped for `desc`).
   */
  function Comparator(k: SortKey, dir: SortDirection, lower: Lower, localeCompare: LocaleCompare): (EquipmentRecord, EquipmentRecord) -> real
  {
    if IsNumeric(k) then
      if dir == Asc then (a, b) => NumberAt(a, k) - NumberAt(b, k)
      else (a, b) => NumberAt(b, k) - NumberAt(a, k)
    else
      if dir == Asc then (a, b) => localeCompare(lower(TextAt(a, k)), lower(TextAt(b, k))) as real
      else (a, b) => localeCompare(lower(TextAt(b, k)), lower(TextAt(a, k))) as real
  }

  /** `sortedData`: the sort runs on a copy, so the filtered rows themselves are left as they were. */
  function SortedData(rows: seq<EquipmentRecord>, k: SortKey, dir: SortDirection, lower: Lower, localeCompare: LocaleCompare): (r: seq<EquipmentRecord>)
    ensures multiset(r) == multiset(rows)
  {
    Sort(rows, Comparator(k, dir, lower, localeCompare))
  }

  /**
   * On a numeric column the sorted rows are non-decreasing in that column
   * for `asc` and non-increasing for `desc`.
   */
  lemma NumericSortOrder(rows: seq<EquipmentRecord>, k: SortKey, dir: SortDirection, lower: Lower, localeCompare: LocaleCompare)
    requires IsNumeric(k)
    ensures var r := SortedData(rows, k, dir, lower, localeCompare);
      forall i, j :: 0 <= i < j < |r| ==>
        if dir == Asc then NumberAt(r[i], k) <= NumberAt(r[j], k) else NumberAt(r[i], k) >= NumberAt(r[j], k)
  {
    var cmp := Comparator(k, dir, lower, localeCompare);
    var r := SortedData(rows, k, dir, lower, localeCompare);
    if dir == Asc {
      var key := (a: EquipmentRecord) => NumberAt(a, k);
      SortSorted(rows, cmp, key);
      assert forall i, j :: 0 <= i < j < |r| ==> key(r[i]) <= key(r[j]);
    } else {
      var key := (a: EquipmentRecord) => -NumberAt(a, k);
      SortSorted(rows, cmp, key);
      assert forall i, j :: 0 <= i < j < |r| ==> key(r[i]) <= key(r[j]);
    }
  }

  // ---------------------------------------------------------------------------
  // Pagination
  // ---------------------------------------------------------------------------

  /** `Math.ceil(n / ITEMS_PER_PAGE)`: the fewest pages of ten that hold `n` rows. */
  function TotalPages(n: nat): (t: nat)
    ensures t * ItemsPerPage >= n
    ensures t == 0 || (t - 1) * ItemsPerPage < n
  {
    (n + ItemsPerPage - 1) / ItemsPerPage
  }

  /** `(currentPage - 1) * ITEMS_PER_PAGE`. */
  function StartIndex(page: nat): nat
    requires page >= 1
  {
    (page - 1) * ItemsPerPage
  }

  /** `rows.slice(startIndex, startIndex + ITEMS_PER_PAGE)`: at most ten rows, those from the page's start index on. */
  function PageOf(rows: seq<EquipmentRecord>, page: nat): (r: seq<EquipmentRecord>)
    requires page >= 1
    ensures |r| <= ItemsPerPage
    ensures StartIndex(page) + |r| <= |rows| || r == []
    ensures forall i :: 0 <= i < |r| ==> r[i] == rows[StartIndex(page) + i]
    ensures StartIndex(page) + ItemsPerPage <= |rows| ==> |r| == ItemsPerPage
  {
    var start := StartIndex(page);
    rows[MinNat(start, |rows|)..MinNat(start + ItemsPerPage, |rows|)]
  }

  /** Pages `page` through `last`, one after another. */
  function PagesFrom(rows: seq<EquipmentRecord>, page: nat, last: nat): seq<EquipmentRecord>
    requires page >= 1
    decreases last + 1 - page
  {
    if page > last then [] else PageOf(rows, page) + PagesFrom(rows, page + 1, last)
  }

  lemma {:induction false} PagesFromSuffix(rows: seq<EquipmentRecord>, page: nat)
    requires 1 <= page <= TotalPages(|rows|) + 1
    ensures PagesFrom(rows, page, TotalPages(|rows|)) == rows[MinNat(StartIndex(page), |rows|)..]
    decreases TotalPages(|rows|) + 1 - page
  {
    var last := TotalPages(|rows|);
    if page > last {
      assert StartIndex(page) >= |rows|;
    } else {
      PagesFromSuffix(rows, page + 1);
      var s := StartIndex(page);
      assert s < |rows|;
      assert StartIndex(page + 1) == s + ItemsPerPage;
      assert rows[s..] == rows[s..MinNat(s + ItemsPerPage, |rows|)] + rows[MinNat(s + ItemsPerPage, |rows|)..];
    }
  }

  /** Pages 1 through `totalPages` put back together give the rows, nothing lost or repeated. */
  lemma PagesCoverRows(rows: seq<EquipmentRecord>)
    ensures PagesFrom(rows, 1, TotalPages(|rows|)) == rows
  {
    PagesFromSuffix(rows, 1);
  }

  /** What the table body shows: the current page of the sorted, filtered rows. */
  function PaginatedData(data: seq<EquipmentRecord>, query: string, k: SortKey, dir: SortDirection, page: nat,
                         lower: Lower, localeCompare: LocaleCompare): (r: seq<EquipmentRecord>)
    requires page >= 1
    ensures |r| <= ItemsPerPage
    ensures forall i :: 0 <= i < |r| ==> r[i] in data && Matches(r[i], query, lower)
  {
    var filtered := FilteredData(data, query, lower);
    var sorted := SortedData(filtered, k, dir, lower, localeCompare);
    var r := PageOf(sorted, page);
    FilteredDataExactly(data, [], query, lower);
    assert forall i :: 0 <= i < |r| ==> r[i] in multiset(filtered);
    r
  }

  // ---------------------------------------------------------------------------
  // The table's state cells
  // ---------------------------------------------------------------------------

  class TableState {
    var sortKey: SortKey
    var sortDirection: SortDirection
    var currentPage: nat
    var searchQuery: string

    /** Pages are numbered from 1. */
    ghost predicate Valid()
      reads this
    {
      currentPage >= 1
    }

    constructor ()
      ensures Valid()
      ensures sortKey == EquipmentName && sortDirection == Asc && currentPage == 1 && searchQuery == ""
    {
      sortKey, sortDirection, currentPage, searchQuery := EquipmentName, Asc, 1, "";
    }

    /** `handleSort`: the current key flips the direction; another key becomes current, ascending. */
    method HandleSort(key: SortKey)
      modifies this`sortKey, this`sortDirection
      ensures sortKey == key
      ensures old(sortKey) == key ==> sortDirection != old(sortDirection)
      ensures old(sortKey) != key ==> sortDirection == Asc
    {
      if sortKey == key {
        sortDirection := if sortDirection == Asc then Desc else Asc;
      } else {
        sortKey := key;
        sortDirection := Asc;
      }
    }

    /** The search box's `onChange`: the query is replaced and the view goes back to page 1. */
    method OnSearchChange(query: string)
      modifies this`searchQuery, this`currentPage
      ensures Valid()
      ensures searchQuery == query && currentPage == 1
    {
      searchQuery := query;
      currentPage := 1;
    }

    /** The previous-page button: one page back, never below page 1. */
    method PrevPage()
      requires Valid()
      modifies this`currentPage
      ensures Valid()
      ensures currentPage == if old(currentPage) > 1 then old(currentPage) - 1 else 1
    {
      currentPage := if currentPage - 1 >= 1 then currentPage - 1 else 1;
    }

    /**
     * The next-page button, rendered only when there is more than one page:
     * one page on, never past the last page.
     */
    method NextPage(totalPages: nat)
      requires Valid()
      requires totalPages > 1
      modifies this`currentPage
      ensures Valid()
      ensures currentPage <= totalPages
      ensures currentPage == if old(currentPage) + 1 <= totalPages then old(currentPage) + 1 else totalPages
    {
      currentPage := if totalPages <= currentPage + 1 then totalPages else currentPage + 1;
    }

    /** The rows the table body shows for `data` in the current state. */
    function Shown(data: seq<EquipmentRecord>, lower: Lower, localeCompare: LocaleCompare): (r: seq<EquipmentRecord>)
      requires Valid()
      reads this
      ensures |r| <= ItemsPerPage
      ensures forall i :: 0 <= i < |r| ==> r[i] in data && Matches(r[i], searchQuery, lower)
    {
      PaginatedData(data, searchQuery, sortKey, sortDirection, currentPage, lower, localeCompare)
    }
  }

  /** Clicking the same column header twice restores the direction. */
  method SortToggleTwice(t: TableState, key: SortKey)
    requires t.sortKey == key
    modifies t
    ensures t.sortKey == key && t.sortDirection == old(t.sortDirection)
  {
    t.HandleSort(key);
    t.HandleSort(key);
  }
}
