/**
 * The listing pipeline every `Get<Kind>s` service function repeats (service/pod.go `GetPods`,
 * service/service.go `GetServices`, service/ingress.go `GetIngress`, ...): convert the listed
 * objects to cells, filter, record the total, sort, paginate and convert back.
 */
module Listing {
  import opened Wrappers
  import opened DataSelector
  import Strs

  /** Why a listing produced no response: the cluster API list call failed, or `Paginate`
      sliced past the end of the filtered list (a Go runtime panic in the source). */
  datatype ListError = ListFailed(cause: string) | SliceOutOfRange(start: int, end: int)

  /** The response of a listing: `Total` and `Items`. */
  datatype Page<T> = Page(total: int, items: seq<T>)

  /** `toCells` as a value: one cell per object, in order, built from the two accessors. */
  function CellsOf<T>(items: seq<T>, nameOf: T -> string, createdOf: T -> int): (r: seq<Cell<T>>)
  {
    seq(|items|, i requires 0 <= i < |items| => Cell(nameOf(items[i]), createdOf(items[i]), items[i]))
  }

  /** `fromCells` as a value: the object behind each cell, in order. */
  function ItemsOf<T>(cells: seq<Cell<T>>): (r: seq<T>)
  {
    seq(|cells|, i requires 0 <= i < |cells| => cells[i].item)
  }

  /** Converting objects to cells and back gives the same objects in the same order; each
      cell carries its object's name and creation time. */
  lemma CellsRoundTrip<T>(items: seq<T>, nameOf: T -> string, createdOf: T -> int)
    ensures |CellsOf(items, nameOf, createdOf)| == |items|
    ensures ItemsOf(CellsOf(items, nameOf, createdOf)) == items
    ensures forall i :: 0 <= i < |items| ==>
      CellsOf(items, nameOf, createdOf)[i].name == nameOf(items[i]) &&
      CellsOf(items, nameOf, createdOf)[i].created == createdOf(items[i])
  {
  }

  /** `toCells`: fills a slice of the same length, index by index. */
  method ToCells<T(0)>(items: seq<T>, nameOf: T -> string, createdOf: T -> int) returns (cells: seq<Cell<T>>)
    ensures cells == CellsOf(items, nameOf, createdOf)
  {
    var a := new Cell<T>[|items|];
    for i := 0 to |items|
      invariant forall k :: 0 <= k < i ==> a[k] == Cell(nameOf(items[k]), createdOf(items[k]), items[k])
    {
      a[i] := Cell(nameOf(items[i]), createdOf(items[i]), items[i]);
    }
    cells := a[..];
  }

  /** `fromCells`: fills a slice of the same length with the object behind each cell. */
  method FromCells<T(0)>(cells: seq<Cell<T>>) returns (items: seq<T>)
    ensures items == ItemsOf(cells)
  {
    var a := new T[|cells|];
    for i := 0 to |cells|
      invariant forall k :: 0 <= k < i ==> a[k] == cells[k].item
    {
      a[i] := cells[i].item;
    }
    items := a[..];
  }

  /** `page` is one page of some newest-first ordering of exactly the cells `matching`. */
  ghost predicate IsPageOfSorted<T(!new)>(matching: seq<Cell<T>>, q: PaginateQuery, page: seq<Cell<T>>) {
    exists sorted :: NewestFirst(sorted) && multiset(sorted) == multiset(matching) &&
      PageFits(|sorted|, q) && page == PageOf(sorted, q)
  }

  /** A page of a sorted permutation is newest first, takes nothing from outside `matching`,
      and with pagination switched off is all of `matching`. */
  lemma PageOfSortedFacts<T(!new)>(matching: seq<Cell<T>>, q: PaginateQuery, page: seq<Cell<T>>)
    requires IsPageOfSorted(matching, q, page)
    ensures NewestFirst(page)
    ensures multiset(page) <= multiset(matching) && |page| <= |matching|
    ensures q.limit <= 0 || q.page <= 0 ==> multiset(page) == multiset(matching) && |page| == |matching|
    ensures q.limit > 0 && q.page > 0 ==> |page| == Min(q.limit, |matching| - q.limit * (q.page - 1))
  {
    var sorted :| NewestFirst(sorted) && multiset(sorted) == multiset(matching) &&
      PageFits(|sorted|, q) && page == PageOf(sorted, q);
    PageOfIsSlice(sorted, q);
    assert |sorted| == |multiset(sorted)| == |matching|;
    assert |page| == |multiset(page)| <= |multiset(matching)|;
    if q.limit > 0 && q.page > 0 {
      PageOfWindow(sorted, q);
    }
  }

  /** Filter, count, sort, paginate on a fresh selector: the total is the number of matching
      cells, counted before paging; the page fails only when it starts past the end. */
  method Select<T(!new)>(cells: seq<Cell<T>>, filterName: string, limit: int, page: int)
    returns (r: Result<Page<Cell<T>>, ListError>)
    ensures var matching := Matching(cells, filterName);
      && (r.Ok? <==> PageFits(|matching|, PaginateQuery(limit, page)))
      && (r.Ok? ==> r.value.total == |matching|)
      && (r.Ok? ==> IsPageOfSorted(matching, PaginateQuery(limit, page), r.value.items))
      && (r.Err? ==> r.error == SliceOutOfRange(limit * (page - 1), |matching|))
  {
    var selectableData := new Selector(cells,
      DataSelectQuery(FilterQuery(filterName), PaginateQuery(limit, page)));
    selectableData.Filter();
    var total := |selectableData.list|;
    ghost var matching := selectableData.list;
    selectableData.Sort();
    ghost var sorted := selectableData.list;
    assert |sorted| == |multiset(sorted)| == |multiset(matching)| == |matching|;
    var ok := selectableData.Paginate();
    if !ok {
      return Err(SliceOutOfRange(limit * (page - 1), total));
    }
    r := Ok(Page(total, selectableData.list));
    assert NewestFirst(sorted) && multiset(sorted) == multiset(matching) &&
      PageFits(|sorted|, PaginateQuery(limit, page)) &&
      r.value.items == PageOf(sorted, PaginateQuery(limit, page));
  }

  /** The response a listing must give for the objects `items`: the number of objects whose name
      contains `filterName`, and the objects of one page of a newest-first ordering of them. */
  ghost predicate IsListing<T(!new)>(items: seq<T>, nameOf: T -> string, createdOf: T -> int,
                               filterName: string, limit: int, page: int, response: Page<T>)
  {
    var matching := Matching(CellsOf(items, nameOf, createdOf), filterName);
    response.total == |matching| &&
    exists pageCells :: IsPageOfSorted(matching, PaginateQuery(limit, page), pageCells) &&
      response.items == ItemsOf(pageCells)
  }

  /** The whole pipeline over a list call's outcome. */
  method List<T(0,!new)>(listed: Result<seq<T>, string>, nameOf: T -> string, createdOf: T -> int,
                         filterName: string, limit: int, page: int)
    returns (r: Result<Page<T>, ListError>)
    ensures listed.Err? ==> r == Err(ListFailed(listed.error))
    ensures listed.Ok? ==>
      var matching := Matching(CellsOf(listed.value, nameOf, createdOf), filterName);
      && (r.Ok? <==> PageFits(|matching|, PaginateQuery(limit, page)))
      && (r.Ok? ==> IsListing(listed.value, nameOf, createdOf, filterName, limit, page, r.value))
      && (r.Err? ==> r.error == SliceOutOfRange(limit * (page - 1), |matching|))
  {
    if listed.Err? {
      return Err(ListFailed(listed.error));
    }
    var cells := ToCells(listed.value, nameOf, createdOf);
    var selected := Select(cells, filterName, limit, page);
    if selected.Err? {
      return Err(selected.error);
    }
    var items := FromCells(selected.value.items);
    r := Ok(Page(selected.value.total, items));
  }

  /** What a listing response promises its caller: every item's name contains the filter
      name, the items are newest first, there are no more of them than the total, and with
      pagination off they are exactly the matching objects, each as often as it was listed. */
  lemma {:induction false} ListingFacts<T(!new)>(items: seq<T>, nameOf: T -> string, createdOf: T -> int,
                                                 filterName: string, limit: int, page: int, response: Page<T>)
    requires IsListing(items, nameOf, createdOf, filterName, limit, page, response)
    ensures |response.items| <= response.total <= |items|
    ensures forall i :: 0 <= i < |response.items| ==> Strs.Contains(nameOf(response.items[i]), filterName)
    ensures forall i, j :: 0 <= i < j < |response.items| ==>
      createdOf(response.items[i]) >= createdOf(response.items[j])
    ensures limit <= 0 || page <= 0 ==>
      |response.items| == response.total &&
      multiset(response.items) == multiset(ItemsOf(Matching(CellsOf(items, nameOf, createdOf), filterName)))
  {
    var cells := CellsOf(items, nameOf, createdOf);
    var matching := Matching(cells, filterName);
    var pageCells: seq<Cell<T>> :| IsPageOfSorted(matching, PaginateQuery(limit, page), pageCells) &&
      response.items == ItemsOf(pageCells);
    PageOfSortedFacts(matching, PaginateQuery(limit, page), pageCells);
    PageCellsMatch(cells, filterName, pageCells);
    PageCellsCarryItems(items, nameOf, createdOf, pageCells);
    if limit <= 0 || page <= 0 {
      ItemsOfMultiset(pageCells, matching);
    }
  }

  /** Cells taken from the matching cells are cells of the list whose name contains the
      filter name. */
  lemma PageCellsMatch<T(!new)>(cells: seq<Cell<T>>, filterName: string, pageCells: seq<Cell<T>>)
    requires multiset(pageCells) <= multiset(Matching(cells, filterName))
    ensures forall i :: 0 <= i < |pageCells| ==> pageCells[i] in cells && Strs.Contains(pageCells[i].name, filterName)
  {
    MatchingMultiset(cells, filterName);
    forall i | 0 <= i < |pageCells|
      ensures pageCells[i] in cells && Strs.Contains(pageCells[i].name, filterName)
    {
      var c := pageCells[i];
      assert c in multiset(pageCells);
      assert multiset(Matching(cells, filterName))[c] > 0;
      assert multiset(cells)[c] > 0;
    }
  }

  /** The objects behind cells of `CellsOf(items, ...)` have the cells' names and times. */
  lemma PageCellsCarryItems<T>(items: seq<T>, nameOf: T -> string, createdOf: T -> int, pageCells: seq<Cell<T>>)
    requires forall i :: 0 <= i < |pageCells| ==> pageCells[i] in CellsOf(items, nameOf, createdOf)
    ensures forall i :: 0 <= i < |pageCells| ==>
      nameOf(ItemsOf(pageCells)[i]) == pageCells[i].name && createdOf(ItemsOf(pageCells)[i]) == pageCells[i].created
  {
    var cells := CellsOf(items, nameOf, createdOf);
    forall i | 0 <= i < |pageCells|
      ensures nameOf(ItemsOf(pageCells)[i]) == pageCells[i].name && createdOf(ItemsOf(pageCells)[i]) == pageCells[i].created
    {
      assert pageCells[i] in cells;
      var k :| 0 <= k < |cells| && cells[k] == pageCells[i];
      assert ItemsOf(pageCells)[i] == items[k];
    }
  }

  /** Cells with equal multisets carry equal multisets of objects. */
  lemma {:induction false} ItemsOfMultiset<T>(xs: seq<Cell<T>>, ys: seq<Cell<T>>)
    requires multiset(xs) == multiset(ys)
    ensures multiset(ItemsOf(xs)) == multiset(ItemsOf(ys))
    decreases |xs|
  {
    if xs != [] {
      var x, xs' := xs[0], xs[1..];
      assert x in ys by { assert x in multiset(xs); }
      var k :| 0 <= k < |ys| && ys[k] == x;
      var ys' := ys[..k] + ys[k + 1..];
      assert multiset(xs') == multiset(ys') by { RemoveMatching(xs, ys, k); }
      assert multiset(ItemsOf(xs')) == multiset(ItemsOf(ys')) by { ItemsOfMultiset(xs', ys'); }
      assert multiset(ItemsOf(xs)) == multiset(ItemsOf(xs')) + multiset{x.item} by {
        ItemsOfSplit(xs, 0);
        assert xs[..0] + xs[1..] == xs';
      }
      assert multiset(ItemsOf(ys)) == multiset(ItemsOf(ys')) + multiset{x.item} by { ItemsOfSplit(ys, k); }
    }
  }

  lemma RemoveMatching<T>(xs: seq<T>, ys: seq<T>, k: nat)
    requires xs != [] && k < |ys| && ys[k] == xs[0] && multiset(xs) == multiset(ys)
    ensures multiset(xs[1..]) == multiset(ys[..k] + ys[k + 1..])
  {
    assert ys == ys[..k] + [ys[k]] + ys[k + 1..];
    assert xs == [xs[0]] + xs[1..];
    var a, b := multiset(xs[1..]), multiset(ys[..k] + ys[k + 1..]);
    assert multiset(xs) == multiset{xs[0]} + a;
    assert multiset(ys) == multiset(ys[..k]) + multiset{ys[k]} + multiset(ys[k + 1..]);
    assert b == multiset(ys[..k]) + multiset(ys[k + 1..]);
    forall c ensures a[c] == b[c] {
      assert multiset(xs)[c] == multiset(ys)[c];
    }
  }

  lemma ItemsOfSplit<T>(xs: seq<Cell<T>>, k: nat)
    requires k < |xs|
    ensures multiset(ItemsOf(xs)) == multiset(ItemsOf(xs[..k] + xs[k + 1..])) + multiset{xs[k].item}
  {
    assert ItemsOf(xs) == ItemsOf(xs[..k]) + [xs[k].item] + ItemsOf(xs[k + 1..]);
    assert ItemsOf(xs[..k] + xs[k + 1..]) == ItemsOf(xs[..k]) + ItemsOf(xs[k + 1..]);
  }
}
