/** A bounded walk over a table that can only be read page by page in id order. */
module PagedScan {
  datatype Row<T> = Row(id: int, body: T)

  predicate Sorted<T>(rows: seq<Row<T>>) {
    (forall i | 0 <= i < |rows| :: rows[i].id >= 1) && forall i, j | 0 <= i < j < |rows| :: rows[i].id < rows[j].id
  }

  /** The rows that satisfy a filter, without any paging. */
  function Filter<T>(rows: seq<Row<T>>, keep: T -> bool): (f: seq<Row<T>>)
    ensures forall i | 0 <= i < |f| :: f[i] in rows && keep(f[i].body)
  {
    if rows == [] then []
    else Filter(rows[..|rows| - 1], keep) + (if keep(rows[|rows| - 1].body) then [rows[|rows| - 1]] else [])
  }

  lemma {:induction false} FilterHas<T>(rows: seq<Row<T>>, keep: T -> bool, i: nat)
    requires i < |rows| && keep(rows[i].body)
    ensures rows[i] in Filter(rows, keep)
  {
    if i < |rows| - 1 { FilterHas(rows[..|rows| - 1], keep, i); }
  }

  /** Every row kept was among the rows. */
  lemma {:induction false} FilterFrom<T>(rows: seq<Row<T>>, keep: T -> bool, k: nat) returns (i: nat)
    requires k < |Filter(rows, keep)|
    ensures i < |rows| && keep(rows[i].body) && rows[i] == Filter(rows, keep)[k]
  {
    var init := rows[..|rows| - 1];
    if k < |Filter(init, keep)| { i := FilterFrom(init, keep, k); } else { i := |rows| - 1; }
  }

  function Take<T>(s: seq<T>, n: nat): seq<T> { if |s| <= n then s else s[..n] }

  /** One page: the first `size` rows past the cursor. */
  function Page<T>(rows: seq<Row<T>>, keep: T -> bool, after: int, size: nat): seq<Row<T>> {
    Take(Filter(After(rows, after), keep), size)
  }

  function After<T>(rows: seq<Row<T>>, after: int): seq<Row<T>> {
    if rows == [] then []
    else After(rows[..|rows| - 1], after) + (if rows[|rows| - 1].id > after then [rows[|rows| - 1]] else [])
  }

  lemma {:induction false} FilterSorted<T>(rows: seq<Row<T>>, keep: T -> bool)
    requires Sorted(rows)
    ensures Sorted(Filter(rows, keep))
  {
    if rows != [] {
      var init := rows[..|rows| - 1];
      var f := Filter(init, keep);
      FilterSorted(init, keep);
      forall i | 0 <= i < |f| ensures f[i].id < rows[|rows| - 1].id {
        assert f[i] in init;
      }
    }
  }

  /** Moving the cursor and filtering commute. */
  lemma {:induction false} AfterFilter<T>(rows: seq<Row<T>>, keep: T -> bool, after: int)
    ensures Filter(After(rows, after), keep) == After(Filter(rows, keep), after)
  {
    if rows != [] {
      var init, last := rows[..|rows| - 1], rows[|rows| - 1];
      AfterFilter(init, keep, after);
      AfterPush(Filter(init, keep), last, after);
      FilterPush(After(init, after), last, keep);
      assert Filter(init, keep) + [] == Filter(init, keep) && After(init, after) + [] == After(init, after);
    }
  }

  lemma AfterPush<T>(rows: seq<Row<T>>, r: Row<T>, after: int)
    ensures After(rows + [r], after) == After(rows, after) + (if r.id > after then [r] else [])
  {
    assert (rows + [r])[..|rows|] == rows;
  }

  lemma FilterPush<T>(rows: seq<Row<T>>, r: Row<T>, keep: T -> bool)
    ensures Filter(rows + [r], keep) == Filter(rows, keep) + (if keep(r.body) then [r] else [])
  {
    assert (rows + [r])[..|rows|] == rows;
  }

  /** Past the k-th row of a sorted table lie exactly the rows from k on. */
  lemma {:induction false} AfterIndex<T>(rows: seq<Row<T>>, k: nat, after: int)
    requires Sorted(rows) && k <= |rows| && (if k == 0 then after < 1 else after == rows[k - 1].id)
    ensures After(rows, after) == rows[k..]
  {
    if |rows| > k {
      var init := rows[..|rows| - 1];
      AfterIndex(init, k, after);
      assert rows[|rows| - 1].id > after;
      assert rows[k..] == init[k..] + [rows[|rows| - 1]];
    } else {
      NoneAfter(rows, after);
    }
  }

  lemma {:induction false} NoneAfter<T>(rows: seq<Row<T>>, after: int)
    requires forall i | 0 <= i < |rows| :: rows[i].id <= after
    ensures After(rows, after) == []
  {
    if rows != [] { NoneAfter(rows[..|rows| - 1], after); }
  }

  /** What the next page holds once the first k kept rows were read. */
  lemma NextPage<T>(rows: seq<Row<T>>, keep: T -> bool, size: nat, k: nat, after: int)
    requires Sorted(rows) && k <= |Filter(rows, keep)|
    requires if k == 0 then after < 1 else after == Filter(rows, keep)[k - 1].id
    ensures Page(rows, keep, after, size) == Take(Filter(rows, keep)[k..], size)
  {
    FilterSorted(rows, keep);
    AfterFilter(rows, keep, after);
    AfterIndex(Filter(rows, keep), k, after);
  }

  /** The walk sees the first pages * size kept rows, and says truncated exactly when it may not have seen them all. */
  method Scan<T>(rows: seq<Row<T>>, keep: T -> bool, pages: nat, size: nat) returns (seen: seq<Row<T>>, truncated: bool)
    requires Sorted(rows) && size >= 1
    ensures seen == Take(Filter(rows, keep), pages * size)
    ensures truncated <==> |Filter(rows, keep)| >= pages * size
  {
    ghost var all, k := Filter(rows, keep), 0;
    seen := [];
    var after := 0;
    for n := 0 to pages
      invariant k == n * size && k <= |all| && seen == all[..k]
      invariant after == if k == 0 then 0 else all[k - 1].id
    {
      Steps(n, pages, size);
      NextPage(rows, keep, size, k, after);
      var page := Page(rows, keep, after, size);
      Joined(all, k, size, page);
      seen := seen + page;
      if |page| < size { return seen, false; }
      k := k + size;
      after := page[|page| - 1].id;
    }
    return seen, true;
  }

  lemma Joined<T>(all: seq<T>, k: nat, size: nat, page: seq<T>)
    requires k <= |all| && size >= 1 && page == Take(all[k..], size)
    ensures |page| <= size && (|page| < size <==> |all| < k + size)
    ensures |page| < size ==> all[..k] + page == all
    ensures |page| == size ==> all[..k] + page == all[..k + size] && page[size - 1] == all[k + size - 1]
  {
  }

  lemma {:induction false} TimesGrows(a: nat, b: nat, size: nat)
    requires a <= b
    ensures a * size <= b * size
  {
    if a < b { TimesGrows(a, b - 1, size); }
  }

  lemma Steps(n: nat, pages: nat, size: nat)
    requires n < pages && size >= 1
    ensures (n + 1) * size == n * size + size && (n + 1) * size <= pages * size && (n == 0 <==> n * size == 0)
  {
    TimesGrows(n + 1, pages, size);
    if n > 0 { TimesGrows(1, n, size); }
  }
}
