/**
 * The generic list selector (`dataSelector` in service/dataselector.go): a list of cells, each
 * reduced to a name and a creation time, filtered by a name substring, sorted newest first and
 * cut into one page. Each operation rewrites the selector's list in place.
 *
 * Creation timestamps are integers (seconds); Go's 64-bit `int` overflow of `limit * page` is
 * not modelled.
 */
module DataSelector {
  import Strs

  /** A `DataCell`: the two accessors `GetName`/`GetCreation` of one resource, together with the
      resource itself (in Go the cell *is* the resource, re-typed). */
  datatype Cell<T> = Cell(name: string, created: int, item: T)

  datatype FilterQuery = FilterQuery(name: string)
  datatype PaginateQuery = PaginateQuery(limit: int, page: int)
  datatype DataSelectQuery = DataSelectQuery(filter: FilterQuery, paginate: PaginateQuery)

  /** The cells whose name contains `name`, in their original order. */
  function Matching<T(!new)>(cells: seq<Cell<T>>, name: string): (r: seq<Cell<T>>)
    ensures |r| <= |cells|
    ensures forall i :: 0 <= i < |r| ==> Strs.Contains(r[i].name, name)
  {
    if cells == [] then []
    else
      var rest := Matching(cells[..|cells| - 1], name);
      var last := cells[|cells| - 1];
      if Strs.Contains(last.name, name) then rest + [last] else rest
  }

  /** Filtering keeps each matching cell as often as it occurs, and no other cell. */
  lemma {:induction false} MatchingMultiset<T(!new)>(cells: seq<Cell<T>>, name: string)
    ensures forall c :: multiset(Matching(cells, name))[c] == if Strs.Contains(c.name, name) then multiset(cells)[c] else 0
    decreases |cells|
  {
    if cells != [] {
      var init, last := cells[..|cells| - 1], cells[|cells| - 1];
      MatchingMultiset(init, name);
      assert cells == init + [last];
      assert multiset(cells) == multiset(init) + multiset{last};
    }
  }

  /** `xs` is obtained from `ys` by deleting elements, keeping the relative order. */
  ghost predicate IsSubsequence<T>(xs: seq<T>, ys: seq<T>)
    decreases |ys|
  {
    if xs == [] then true
    else if ys == [] then false
    else if xs[|xs| - 1] == ys[|ys| - 1] then IsSubsequence(xs[..|xs| - 1], ys[..|ys| - 1])
    else IsSubsequence(xs, ys[..|ys| - 1])
  }

  lemma {:induction false} MatchingIsSubsequence<T(!new)>(cells: seq<Cell<T>>, name: string)
    ensures IsSubsequence(Matching(cells, name), cells)
    decreases |cells|
  {
    if cells != [] {
      var init := cells[..|cells| - 1];
      MatchingIsSubsequence(init, name);
      var m := Matching(cells, name);
      if Strs.Contains(cells[|cells| - 1].name, name) {
        assert m[..|m| - 1] == Matching(init, name);
      } else {
        if m != [] {
          SubsequenceOfInit(m, init, cells[|cells| - 1]);
        }
      }
    }
  }

  lemma {:induction false} SubsequenceOfInit<T>(xs: seq<T>, ys: seq<T>, y: T)
    requires IsSubsequence(xs, ys)
    ensures IsSubsequence(xs, ys + [y])
    decreases |ys|, 1
  {
    var ys' := ys + [y];
    assert ys'[..|ys'| - 1] == ys;
    if xs != [] && xs[|xs| - 1] == y {
      SubsequenceDropLast(xs, ys);
    }
  }

  lemma {:induction false} SubsequenceDropLast<T>(xs: seq<T>, ys: seq<T>)
    requires xs != [] && IsSubsequence(xs, ys)
    ensures IsSubsequence(xs[..|xs| - 1], ys)
    decreases |ys|, 0
  {
    var init := xs[..|xs| - 1];
    if init != [] {
      if xs[|xs| - 1] == ys[|ys| - 1] {
        SubsequenceOfInit(init, ys[..|ys| - 1], ys[|ys| - 1]);
        assert ys[..|ys| - 1] + [ys[|ys| - 1]] == ys;
      } else {
        SubsequenceDropLast(xs, ys[..|ys| - 1]);
        SubsequenceOfInit(init, ys[..|ys| - 1], ys[|ys| - 1]);
        assert ys[..|ys| - 1] + [ys[|ys| - 1]] == ys;
      }
    }
  }

  /** With an empty filter name every cell matches: the list is kept as it is. */
  lemma {:induction false} MatchingEmptyName<T(!new)>(cells: seq<Cell<T>>)
    ensures Matching(cells, "") == cells
    decreases |cells|
  {
    if cells != [] {
      MatchingEmptyName(cells[..|cells| - 1]);
      Strs.ContainsEmpty(cells[|cells| - 1].name);
      assert cells[..|cells| - 1] + [cells[|cells| - 1]] == cells;
    }
  }

  /** Newest first: every cell is at least as recent as every later one. */
  predicate NewestFirst<T>(cells: seq<Cell<T>>) {
    forall i, j :: 0 <= i < j < |cells| ==> cells[i].created >= cells[j].created
  }

  /** Whether `Paginate` gets through: it does nothing for a non-positive limit or page and
      otherwise slices at `limit * (page - 1)`, which must not lie beyond the list. */
  predicate PageFits(n: nat, q: PaginateQuery) {
    q.limit <= 0 || q.page <= 0 || q.limit * (q.page - 1) <= n
  }

  function Min(a: int, b: int): int {
    if a <= b then a else b
  }

  /** The part of `cells` that `Paginate` keeps. */
  function PageOf<T>(cells: seq<Cell<T>>, q: PaginateQuery): (r: seq<Cell<T>>)
    requires PageFits(|cells|, q)
  {
    if q.limit <= 0 || q.page <= 0 then cells
    else
      var start := q.limit * (q.page - 1);
      assert start <= Min(q.limit * q.page, |cells|) by {
        assert q.limit * q.page == start + q.limit;
      }
      cells[start..Min(q.limit * q.page, |cells|)]
  }

  /** A page, when pagination is active, is the run of `min(limit, len - start)` cells that
      begins at `start = limit * (page - 1)`; a start equal to the length gives an empty page. */
  lemma PageOfWindow<T>(cells: seq<Cell<T>>, q: PaginateQuery)
    requires q.limit > 0 && q.page > 0 && PageFits(|cells|, q)
    ensures var start := q.limit * (q.page - 1);
      && |PageOf(cells, q)| == Min(q.limit, |cells| - start)
      && (forall k :: 0 <= k < |PageOf(cells, q)| ==> PageOf(cells, q)[k] == cells[start + k])
      && (start == |cells| ==> PageOf(cells, q) == [])
  {
    assert q.limit * q.page == q.limit * (q.page - 1) + q.limit;
  }

  /** A non-positive limit or page switches pagination off. */
  lemma PageOfDisabled<T>(cells: seq<Cell<T>>, q: PaginateQuery)
    requires q.limit <= 0 || q.page <= 0
    ensures PageFits(|cells|, q) && PageOf(cells, q) == cells
  {
  }

  /** A page is a contiguous piece of its list: no longer, the same order, nothing new. */
  lemma {:induction false} PageOfIsSlice<T>(cells: seq<Cell<T>>, q: PaginateQuery)
    requires PageFits(|cells|, q)
    ensures |PageOf(cells, q)| <= |cells|
    ensures multiset(PageOf(cells, q)) <= multiset(cells)
    ensures NewestFirst(cells) ==> NewestFirst(PageOf(cells, q))
  {
    if q.limit > 0 && q.page > 0 {
      var start := q.limit * (q.page - 1);
      assert q.limit * q.page == start + q.limit;
      var end := Min(q.limit * q.page, |cells|);
      assert cells == cells[..start] + cells[start..end] + cells[end..];
    }
  }

  /**
   * The selector object: the list it works on (`GenericDataList`) and the query
   * (`DataSelect`), which no operation changes.
   */
  class Selector<T(!new)> {
    var list: seq<Cell<T>>
    const query: DataSelectQuery

    constructor (cells: seq<Cell<T>>, query: DataSelectQuery)
      ensures list == cells && this.query == query
    {
      list := cells;
      this.query := query;
    }

    /** `Less(i, j)`: cell `j` was created strictly before cell `i`. */
    predicate Less(i: nat, j: nat)
      reads this
      requires i < |list| && j < |list|
    {
      list[j].created < list[i].created
    }

    /** `Swap(i, j)`: exchanges two cells, leaving the others in place. */
    method Swap(i: nat, j: nat)
      requires i < |list| && j < |list|
      modifies this
      ensures list == old(list)[i := old(list)[j]][j := old(list)[i]]
      ensures multiset(list) == multiset(old(list))
    {
      list := list[i := list[j]][j := list[i]];
    }

    /** `Filter`: keeps the cells whose name contains the filter name (all of them when the
        filter name is empty), in their order. */
    method Filter()
      modifies this
      ensures list == Matching(old(list), query.filter.name)
    {
      if query.filter.name == "" {
        MatchingEmptyName(list);
        return;
      }
      var filtered: seq<Cell<T>> := [];
      var i := 0;
      while i < |list|
        invariant 0 <= i <= |list|
        invariant filtered == Matching(list[..i], query.filter.name)
      {
        var value := list[i];
        assert list[..i + 1] == list[..i] + [value];
        if Strs.Contains(value.name, query.filter.name) {
          filtered := filtered + [value];
        }
        i := i + 1;
      }
      assert list[..i] == list;
      list := filtered;
    }

    /** `Sort`: newest first, by insertion through `Less` and `Swap`; a permutation of the
        list (the order of equal timestamps is not specified). */
    method Sort()
      modifies this
      ensures multiset(list) == multiset(old(list))
      ensures NewestFirst(list)
    {
      var n := |list|;
      var i := 0;
      while i < n
        invariant 0 <= i <= n == |list|
        invariant multiset(list) == multiset(old(list))
        invariant NewestFirst(list[..i])
      {
        InsertNext(i);
        i := i + 1;
      }
      assert list[..i] == list;
    }

    /** One insertion step of `Sort`: moves cell `i` down past the older cells before it, so
        that the first `i + 1` cells are newest first. */
    method InsertNext(i: nat)
      requires i < |list| && NewestFirst(list[..i])
      modifies this
      ensures |list| == |old(list)| && multiset(list) == multiset(old(list))
      ensures NewestFirst(list[..i + 1])
    {
      var j := i;
      while j > 0 && Less(j, j - 1)
        invariant 0 <= j <= i < |list| == |old(list)|
        invariant multiset(list) == multiset(old(list))
        invariant forall a, b :: 0 <= a < b <= i && a != j && b != j ==> list[a].created >= list[b].created
        invariant forall b :: j < b <= i ==> list[j].created >= list[b].created
      {
        Swap(j - 1, j);
        j := j - 1;
      }
    }

    /** `Paginate`: keeps one page. `ok` is false when `limit * (page - 1)` lies beyond the
        list: the Go slice expression then has start > end and panics, and the list is left
        as it was. */
    method Paginate() returns (ok: bool)
      modifies this
      ensures ok == PageFits(|old(list)|, query.paginate)
      ensures list == if ok then PageOf(old(list), query.paginate) else old(list)
    {
      var limit := query.paginate.limit;
      var page := query.paginate.page;
      if limit <= 0 || page <= 0 {
        return true;
      }
      var startIndex := limit * (page - 1);
      var endIndex := limit * page;
      if endIndex > |list| {
        endIndex := |list|;
      }
      if startIndex > endIndex {
        assert startIndex > |list|;
        return false;
      }
      list := list[startIndex..endIndex];
      return true;
    }
  }
}
