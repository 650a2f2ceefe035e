/** One drain pass over an outbox nobody else changes meanwhile. */
module OutboxPass {
  type EventId = string

  /** The outbox lists at most this many unsent rows, oldest first. */
  const LIST_LIMIT: nat := 1000

  predicate Distinct(s: seq<EventId>) {
    s == [] || (s[|s| - 1] !in s[..|s| - 1] && Distinct(s[..|s| - 1]))
  }

  lemma {:induction false} DistinctAt(s: seq<EventId>, k: nat)
    requires Distinct(s) && k < |s|
    ensures s[k] !in s[..k] && s[k] !in s[k + 1..]
  {
    var init := s[..|s| - 1];
    if k < |s| - 1 {
      DistinctAt(init, k);
      assert init[..k] == s[..k] && s[k + 1..] == init[k + 1..] + [s[|s| - 1]];
      assert s[k] in init;
    }
  }

  /** The rows whose delivery does not end in a mark. */
  function Failing(rows: seq<EventId>, ok: map<EventId, bool>): seq<EventId> {
    if rows == [] then []
    else Failing(rows[..|rows| - 1], ok) + (if Delivers(rows[|rows| - 1], ok) then [] else [rows[|rows| - 1]])
  }

  lemma {:induction false} FailingIn(rows: seq<EventId>, ok: map<EventId, bool>, e: EventId)
    requires e in Failing(rows, ok)
    ensures e in rows
  {
    if rows[|rows| - 1] != e { FailingIn(rows[..|rows| - 1], ok, e); }
  }

  predicate Delivers(e: EventId, ok: map<EventId, bool>) { e in ok && ok[e] }

  function Without(s: seq<EventId>, e: EventId): seq<EventId> {
    if s == [] then [] else (if s[0] == e then [] else [s[0]]) + Without(s[1..], e)
  }

  lemma {:induction false} WithoutAbsent(s: seq<EventId>, e: EventId)
    requires e !in s
    ensures Without(s, e) == s
  {
    if s != [] { WithoutAbsent(s[1..], e); }
  }

  lemma {:induction false} WithoutMiddle(a: seq<EventId>, e: EventId, b: seq<EventId>)
    requires e !in a && e !in b
    ensures Without(a + [e] + b, e) == a + b
  {
    var s := a + [e] + b;
    if a == [] {
      assert s[1..] == b;
      WithoutAbsent(b, e);
    } else {
      assert s[1..] == a[1..] + [e] + b;
      WithoutMiddle(a[1..], e, b);
    }
  }

  /** The unsent rows after the first m were tried in order. */
  function Left(rows: seq<EventId>, m: nat, ok: map<EventId, bool>): seq<EventId>
    requires m <= |rows|
  {
    if m == 0 then rows
    else if Delivers(rows[m - 1], ok) then Without(Left(rows, m - 1, ok), rows[m - 1])
    else Left(rows, m - 1, ok)
  }

  function Page(unsent: seq<EventId>, limit: nat): seq<EventId> {
    if |unsent| <= limit then unsent else unsent[..limit]
  }

  lemma FailingStep(rows: seq<EventId>, m: nat, ok: map<EventId, bool>)
    requires m < |rows|
    ensures Failing(rows[..m + 1], ok) == Failing(rows[..m], ok) + (if Delivers(rows[m], ok) then [] else [rows[m]])
  {
    assert rows[..m + 1][..m] == rows[..m];
  }

  lemma {:induction false} FailingGrows(rows: seq<EventId>, m: nat, n: nat, ok: map<EventId, bool>)
    requires m <= n <= |rows|
    ensures |Failing(rows[..m], ok)| <= |Failing(rows[..n], ok)|
    decreases n
  {
    if m < n {
      FailingGrows(rows, m, n - 1, ok);
      FailingStep(rows, n - 1, ok);
    }
  }

  lemma DeliveredLeaves(rows: seq<EventId>, m: nat, ok: map<EventId, bool>)
    requires m < |rows| && Distinct(rows)
    ensures Without(Failing(rows[..m], ok) + rows[m..], rows[m]) == Failing(rows[..m], ok) + rows[m + 1..]
  {
    var a, e, b := Failing(rows[..m], ok), rows[m], rows[m + 1..];
    DistinctAt(rows, m);
    if e in a { FailingIn(rows[..m], ok, e); }
    WithoutMiddle(a, e, b);
    Regroup(a, e, b, rows[m..]);
  }

  lemma Regroup(a: seq<EventId>, e: EventId, b: seq<EventId>, tail: seq<EventId>)
    requires |tail| > 0 && tail[0] == e && tail[1..] == b
    ensures a + tail == a + [e] + b
  {
    assert tail == [e] + b;
  }

  /** They are the failing ones, then the rest untouched. */
  lemma {:induction false} LeftShape(rows: seq<EventId>, m: nat, ok: map<EventId, bool>)
    requires m <= |rows| && Distinct(rows)
    ensures Left(rows, m, ok) == Failing(rows[..m], ok) + rows[m..]
  {
    if m == 0 {
      assert rows[..0] == [] && [] + rows[0..] == rows;
    } else {
      LeftShape(rows, m - 1, ok);
      FailingStep(rows, m - 1, ok);
      if Delivers(rows[m - 1], ok) {
        DeliveredLeaves(rows, m - 1, ok);
        assert Failing(rows[..m - 1], ok) + [] == Failing(rows[..m - 1], ok);
      } else {
        Regroup(Failing(rows[..m - 1], ok), rows[m - 1], rows[m..], rows[m - 1..]);
      }
    }
  }

  class Outbox {
    var unsent: seq<EventId>

    constructor (rows: seq<EventId>)
      ensures unsent == rows
    {
      unsent := rows;
    }

    method List(limit: nat) returns (rows: seq<EventId>)
      ensures rows == Page(unsent, limit)
    {
      rows := if |unsent| <= limit then unsent else unsent[..limit];
    }

    /** drainRow: a row that lands is marked sent and leaves the unsent view. */
    method Drain(e: EventId, ok: map<EventId, bool>)
      modifies this
      ensures unsent == if Delivers(e, ok) then Without(old(unsent), e) else old(unsent)
    {
      if Delivers(e, ok) { unsent := Without(unsent, e); }
    }

    /** One listing: rows seen before are skipped, every other row is tried. */
    method DrainPage(page: seq<EventId>, limit: nat, ok: map<EventId, bool>, ghost rows: seq<EventId>, ghost m: nat,
                     seenBefore: set<EventId>)
      returns (tried: seq<EventId>, seen: set<EventId>, ghost k: nat)
      requires Distinct(rows) && m <= |rows| && unsent == Left(rows, m, ok) && page == Page(unsent, limit)
      requires SeenFirst(seenBefore, rows, m)
      modifies this
      ensures k == m + Beyond(|page|, |Failing(rows[..m], ok)|) && k <= |rows|
      ensures tried == rows[m..k] && unsent == Left(rows, k, ok) && SeenFirst(seen, rows, k)
    {
      tried, seen := [], seenBefore;
      k := m;
      for j := 0 to |page|
        invariant k == m + Beyond(j, |Failing(rows[..m], ok)|)
        invariant m <= k <= |rows| && tried == rows[m..k]
        invariant unsent == Left(rows, k, ok) && SeenFirst(seen, rows, k)
      {
        PageAt(rows, m, ok, limit, j, seen);
        if page[j] !in seen {
          SeenNext(seen, rows, k);
          Grown(rows, m, k);
          seen := seen + {page[j]};
          tried := tried + [page[j]];
          Drain(page[j], ok);
          k := k + 1;
        }
      }
    }

    /** drainPass over any listing limit: tries the rows in order, each once, as far as fewer than `limit` earlier ones fail. */
    method Pass(limit: nat, ok: map<EventId, bool>) returns (tried: seq<EventId>)
      requires limit >= 1 && Distinct(unsent)
      modifies this
      ensures Reaches(old(unsent), |tried|, ok, limit) && tried == old(unsent)[..|tried|]
      ensures unsent == Left(old(unsent), |tried|, ok)
    {
      ghost var rows, k := unsent, 0;
      assert rows[..0] == [];
      tried := [];
      var seen: set<EventId> := {};
      var more := true;
      while more
        invariant k <= |rows| && tried == rows[..k] && unsent == Left(rows, k, ok)
        invariant SeenFirst(seen, rows, k)
        invariant k > 0 ==> |Failing(rows[..k - 1], ok)| < limit
        invariant !more ==> k == |rows| || |Failing(rows[..k], ok)| >= limit
        decreases |rows| - k, more
      {
        var page := List(limit);
        var batch: seq<EventId>;
        ghost var next: nat;
        batch, seen, next := DrainPage(page, limit, ok, rows, k, seen);
        PageEnds(rows, k, ok, limit, next);
        Joined(rows, k, next);
        tried := tried + batch;
        k := next;
        more := |page| == limit && |batch| > 0;
      }
      TriedExactly(rows, k, ok, limit);
    }

    /** The pass as the assistant runs it, with the outbox's own listing limit. */
    method DrainPass(ok: map<EventId, bool>) returns (tried: seq<EventId>)
      requires Distinct(unsent)
      modifies this
      ensures Reaches(old(unsent), |tried|, ok, 1000) && tried == old(unsent)[..|tried|]
      ensures unsent == Left(old(unsent), |tried|, ok)
    {
      tried := Pass(LIST_LIMIT, ok);
    }
  }

  lemma Grown(rows: seq<EventId>, m: nat, k: nat)
    requires m <= k < |rows|
    ensures rows[m..k] + [rows[k]] == rows[m..k + 1]
  {
  }

  lemma Joined(rows: seq<EventId>, k: nat, next: nat)
    requires k <= next <= |rows|
    ensures rows[..k] + rows[k..next] == rows[..next]
  {
  }

  /** The first k rows are exactly those with fewer than `limit` failing rows before them. */
  ghost predicate Reaches(rows: seq<EventId>, k: nat, ok: map<EventId, bool>, limit: nat) {
    k <= |rows| && forall i | 0 <= i < |rows| :: i < k <==> |Failing(rows[..i], ok)| < limit
  }

  /** How far j reaches past f. */
  function Beyond(j: nat, f: nat): nat { if j <= f then 0 else j - f }

  ghost predicate SeenFirst(seen: set<EventId>, rows: seq<EventId>, m: nat)
    requires m <= |rows|
  {
    forall e :: e in seen <==> e in rows[..m]
  }

  lemma SeenNext(seen: set<EventId>, rows: seq<EventId>, m: nat)
    requires m < |rows| && SeenFirst(seen, rows, m)
    ensures SeenFirst(seen + {rows[m]}, rows, m + 1)
  {
    assert rows[..m + 1] == rows[..m] + [rows[m]];
  }

  lemma LeftLength(rows: seq<EventId>, m: nat, ok: map<EventId, bool>)
    requires m <= |rows| && Distinct(rows)
    ensures |Left(rows, m, ok)| == |Failing(rows[..m], ok)| + (|rows| - m)
  {
    LeftShape(rows, m, ok);
  }

  /** A listing that went on to row `next` went through them all, met `limit` failures, or was full. */
  lemma PageEnds(rows: seq<EventId>, m: nat, ok: map<EventId, bool>, limit: nat, next: nat)
    requires m <= |rows| && Distinct(rows) && next == m + Beyond(|Page(Left(rows, m, ok), limit)|, |Failing(rows[..m], ok)|)
    ensures m <= next <= |rows| && (next > m ==> |Failing(rows[..next - 1], ok)| < limit)
    ensures |Page(Left(rows, m, ok), limit)| < limit ==> next == |rows|
    ensures |Page(Left(rows, m, ok), limit)| == limit && next == m ==> |Failing(rows[..m], ok)| >= limit
  {
    LeftLength(rows, m, ok);
    if next > m { FailingWithin(rows, m, next - 1, ok); }
  }

  lemma TriedExactly(rows: seq<EventId>, k: nat, ok: map<EventId, bool>, limit: nat)
    requires k <= |rows| && (k > 0 ==> |Failing(rows[..k - 1], ok)| < limit)
    requires k == |rows| || |Failing(rows[..k], ok)| >= limit
    ensures Reaches(rows, k, ok, limit)
  {
    forall i | 0 <= i < |rows| ensures i < k <==> |Failing(rows[..i], ok)| < limit {
      if i < k { FailingGrows(rows, i, k - 1, ok); } else { FailingGrows(rows, k, i, ok); }
    }
  }

  lemma PageIndex(a: seq<EventId>, b: seq<EventId>, limit: nat, j: nat)
    requires j < |Page(a + b, limit)|
    ensures j < |a| + |b| && Page(a + b, limit)[j] == if j < |a| then a[j] else b[j - |a|]
  {
  }

  /** The j-th row of a listing was seen already, or it is the next row not tried yet. */
  lemma PageAt(rows: seq<EventId>, m: nat, ok: map<EventId, bool>, limit: nat, j: nat, seen: set<EventId>)
    requires m <= |rows| && Distinct(rows) && j < |Page(Left(rows, m, ok), limit)|
    requires var f := |Failing(rows[..m], ok)|; m + Beyond(j, f) <= |rows| && SeenFirst(seen, rows, m + Beyond(j, f))
    ensures var f := |Failing(rows[..m], ok)|; var e := Page(Left(rows, m, ok), limit)[j];
      if j < f then e in seen else m + j - f < |rows| && e == rows[m + j - f] && e !in seen
  {
    var failing := Failing(rows[..m], ok);
    LeftShape(rows, m, ok);
    PageIndex(failing, rows[m..], limit, j);
    if j < |failing| {
      FailingIn(rows[..m], ok, failing[j]);
    } else {
      DistinctAt(rows, m + j - |failing|);
    }
  }

  lemma FailingWithin(rows: seq<EventId>, m: nat, n: nat, ok: map<EventId, bool>)
    requires m <= n <= |rows|
    ensures |Failing(rows[..n], ok)| <= |Failing(rows[..m], ok)| + n - m
    decreases n
  {
    if m < n {
      FailingWithin(rows, m, n - 1, ok);
      FailingStep(rows, n - 1, ok);
    }
  }

  /** When fewer rows fail than one listing holds, every owed row is tried. */
  lemma AllTried(rows: seq<EventId>, ok: map<EventId, bool>, limit: nat, i: nat)
    requires i < |rows| && |Failing(rows, ok)| < limit
    ensures |Failing(rows[..i], ok)| < limit
  {
    FailingGrows(rows, i, |rows|, ok);
    assert rows[..|rows|] == rows;
  }
}
