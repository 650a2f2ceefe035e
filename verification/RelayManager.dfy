/**
 * The relay manager's lock regions as methods on its maps. Each one makes exactly the
 * step the state machine takes; `held` keeps a list for every pane, as the code does.
 */
module RelayManager {
  import opened BusyRelay

  type Lists = map<Pane, seq<EventId>>

  function Members(s: seq<EventId>): set<EventId> { set e | e in s }

  function Sets(held: Lists): map<Pane, set<EventId>> { map p | p in held :: Members(held[p]) }

  /** The list without one event, in order. */
  function Removed(s: seq<EventId>, e: EventId): seq<EventId> {
    if s == [] then []
    else if s[|s| - 1] == e then Removed(s[..|s| - 1], e)
    else Removed(s[..|s| - 1], e) + [s[|s| - 1]]
  }

  lemma MembersPush(s: seq<EventId>, x: EventId)
    ensures Members(s + [x]) == Members(s) + {x}
  {
  }

  lemma {:induction false} RemovedMembers(s: seq<EventId>, e: EventId)
    ensures Members(Removed(s, e)) == Members(s) - {e}
  {
    if s != [] {
      var init, x := s[..|s| - 1], s[|s| - 1];
      RemovedMembers(init, e);
      assert s == init + [x];
      MembersPush(init, x);
      MembersPush(Removed(init, e), x);
    }
  }

  class Manager {
    var store: map<EventId, Row>
    var held: Lists
    var waits: map<Pane, nat>
    var inflight: set<EventId>
    var threads: map<nat, Thread>
    var next: nat
    /** The texts taken and the rows edited since, for the specification only. */
    ghost var taken: map<EventId, string>
    ghost var edited: set<EventId>
    /** What no lock region touches: receipts, history and mode. */
    ghost const rest: Node

    constructor (ghost rest: Node)
      ensures this.rest == rest && store == map[] && held == map[] && waits == map[] && inflight == {} && threads == map[]
      ensures taken == map[] && edited == {}
    {
      this.rest := rest;
      taken, edited := map[], {};
      store, held, waits, inflight, threads, next := map[], map[], map[], {}, map[], 0;
    }

    ghost function View(): Node reads this {
      rest.(store := store, held := Sets(held), waits := waits, inflight := inflight, threads := threads, next := next,
            taken := taken, edited := edited)
    }

    /** RelayHeldForPane: every stored row of the pane, each once. */
    method RowsForPane(p: Pane) returns (ids: seq<EventId>)
      ensures Members(ids) == RowsAt(store, p)
    {
      ids := [];
      var left := store.Keys;
      while left != {}
        invariant left <= store.Keys
        invariant Members(ids) == set e | e in store && e !in left && store[e].pane == p
        decreases left
      {
        var e :| e in left;
        if store[e].pane == p {
          assert Members(ids + [e]) == Members(ids) + {e};
          ids := ids + [e];
        }
        left := left - {e};
      }
    }

    /** hold: insert, read the pane's rows and register them in one lock region. */
    method Hold(row: Row)
      modifies this
      ensures View() == HoldRow(old(View()), row)
    {
      if row.eid !in store { store := store[row.eid := row]; }
      var rows := RowsForPane(row.pane);
      held := held[row.pane := rows];
      assert Sets(held) == old(Sets(held))[row.pane := RowsAt(store, row.pane)];
    }

    /** arm: the registered wait is cancelled; a new one starts only for registered rows. */
    method Arm(p: Pane)
      modifies this
      ensures View() == ArmPane(old(View()), p)
    {
      if p in waits && waits[p] in threads {
        threads := threads[waits[p] := Cancelled(threads[waits[p]])];
      }
      waits := waits - {p};
      ghost var stopped := StopWait(old(View()), p);
      assert View() == stopped;
      assert HeldAt(old(View()), p) == if p in held then Members(held[p]) else {};
      if p in held && |held[p]| > 0 {
        assert held[p][0] in Members(held[p]);
        threads := threads[next := Wait(p, false)];
        waits := waits[p := next];
        next := next + 1;
      }
    }

    /** heldSnapshot: the pane's rows that no release is delivering. */
    method HeldSnapshot(p: Pane) returns (items: map<EventId, Row>)
      ensures items == Snapshot(View(), p)
    {
      var rows := RowsForPane(p);
      items := map[];
      for i := 0 to |rows|
        invariant items == map e | e in store && e in rows[..i] && e !in inflight :: store[e]
      {
        assert rows[i] in Members(rows) && rows[..i + 1] == rows[..i] + [rows[i]];
        if rows[i] !in inflight { items := items[rows[i] := store[rows[i]]]; }
      }
      assert forall e :: e in Members(rows) <==> e in rows[..|rows|];
    }
  
    /** markInflight. */
    method MarkInflight(items: map<EventId, Row>)
      modifies this`inflight
      ensures inflight == old(inflight) + items.Keys
    {
      var left := items.Keys;
      while left != {}
        invariant left <= items.Keys && inflight == old(inflight) + (items.Keys - left)
        decreases left
      {
        var e :| e in left;
        inflight := inflight + {e};
        left := left - {e};
      }
    }

    /** finishInflight. */
    method FinishInflight(items: map<EventId, Row>)
      modifies this`inflight
      ensures inflight == old(inflight) - items.Keys
    {
      var left := items.Keys;
      while left != {}
        invariant left <= items.Keys && inflight == old(inflight) - (items.Keys - left)
        decreases left
      {
        var e :| e in left;
        inflight := inflight - {e};
        left := left - {e};
      }
    }

    /** release's lock region: thread t takes every row its pane holds, or ends. */
    method Release(t: nat) returns (items: map<EventId, Row>)
      requires t in threads && threads[t].Woken?
      modifies this
      ensures items == Snapshot(old(View()), old(threads)[t].pane)
      ensures View() == DoTakeAll(old(View()), t)
    {
      var p := threads[t].pane;
      items := HeldSnapshot(p);
      if |items| == 0 {
        assert items.Keys == {};
        threads := threads - {t};
        return;
      }
      assert items.Keys != {};
      assert Sets(held - {p}) == Sets(held) - {p};
      Deliver(t, items, held - {p}, false);
    }

    /** The directives among the rows, and whether there are others. */
    method SplitDirectives(items: map<EventId, Row>) returns (directives: map<EventId, Row>, others: bool)
      ensures directives == Directives(items) && (others <==> directives.Keys != items.Keys)
    {
      directives, others := map[], false;
      var left := items.Keys;
      while left != {}
        invariant left <= items.Keys
        invariant directives == map e | e in items && e !in left && items[e].directive :: items[e]
        invariant others <==> exists e :: e in items && e !in left && !items[e].directive
        decreases left
      {
        var e :| e in left;
        if items[e].directive { directives := directives[e := items[e]]; } else { others := true; }
        left := left - {e};
      }
      if others {
        var e :| e in items && !items[e].directive;
        assert e !in directives;
      }
    }

    /** The pane's list without the rows being delivered. */
    method Remaining(p: Pane, delivering: set<EventId>) returns (remaining: seq<EventId>)
      ensures Members(remaining) == (if p in held then Members(held[p]) else {}) - delivering
    {
      remaining := [];
      if p !in held { return; }
      for i := 0 to |held[p]|
        invariant Members(remaining) == Members(held[p][..i]) - delivering
      {
        assert held[p][..i + 1] == held[p][..i] + [held[p][i]];
        MembersPush(held[p][..i], held[p][i]);
        if held[p][i] !in delivering {
          MembersPush(remaining, held[p][i]);
          remaining := remaining + [held[p][i]];
        }
      }
      assert held[p][..|held[p]|] == held[p];
    }

    /** Thread t delivers these rows, and the pane keeps this list. */
    method Deliver(t: nat, items: map<EventId, Row>, lists: Lists, always: bool)
      requires t in threads && threads[t].Woken?
      modifies this
      ensures View() == Take(old(View()), t, items, Sets(lists), always)
    {
      var p := threads[t].pane;
      ghost var was := View();
      taken := TakenTexts(was, items);
      edited := edited - (items.Keys - was.delivered.Keys);
      waits := waits - {p};
      held := lists;
      MarkInflight(items);
      threads := threads[t := Delivering(p, items, items.Keys, Settling({}, MaybeInPane), map[], always)];
    }

    /** releaseWorking's lock region: the directives, everything once expired, or nothing but a new wait. */
    method ReleaseWorking(t: nat, expired: bool)
      requires t in threads && threads[t].Woken?
      modifies this
      ensures View() == DoTakeWorking(old(View()), t, expired)
    {
      var p := threads[t].pane;
      var items := HeldSnapshot(p);
      var directives, others := SplitDirectives(items);
      if |items| == 0 {
        assert items.Keys == {};
        threads := threads - {t};
        return;
      }
      assert items.Keys != {};
      if !others || expired {
        AllDirectives(items, directives);
        assert Sets(held - {p}) == Sets(held) - {p};
        Deliver(t, items, held - {p}, true);
      } else if |directives| == 0 {
        assert directives.Keys == {};
        threads := threads[t := Arming({p})];
      } else {
        assert directives.Keys != {};
        var remaining := Remaining(p, directives.Keys);
        assert Sets(held[p := remaining]) == Sets(held)[p := Members(remaining)];
        Deliver(t, directives, held[p := remaining], true);
      }
    }

    /** reconcileHeld: the pane's list becomes what the store holds for it. */
    method ReconcileHeld(p: Pane)
      modifies this`held
      ensures Sets(held) == Relisted(old(View()), p)
    {
      var rows := RowsForPane(p);
      if |rows| == 0 {
        assert RowsAt(store, p) == {};
        held := held - {p};
      } else {
        assert rows[0] in RowsAt(store, p);
        held := held[p := rows];
      }
      assert Sets(held) == Relisted(old(View()), p);
    }

    /** edit: the stored text changes whether or not a release is delivering the row. */
    method Edit(e: EventId, text: string) returns (changed: bool)
      modifies this`store, this`edited
      ensures changed <==> text != "" && e in old(store)
      ensures View() == if changed then DoEdit(old(View()), e, text) else old(View())
    {
      changed := text != "" && e in store;
      if changed {
        edited := DoEdit(View(), e, text).edited;
        store := store[e := store[e].(text := text)];
      }
    }

    /** Takes the event out of every list; `panes` are the lists that named it. */
    method Unlist(e: EventId) returns (panes: set<Pane>)
      modifies this`held
      ensures held.Keys == old(held).Keys && forall p | p in held :: held[p] == Removed(old(held)[p], e)
      ensures panes == Listing(old(held), e)
    {
      panes := {};
      var left := held.Keys;
      while left != {}
        invariant left <= old(held).Keys && held.Keys == old(held).Keys
        invariant forall p | p in held :: held[p] == if p in left then old(held)[p] else Removed(old(held)[p], e)
        invariant panes == Listing(old(held), e) - left
        decreases left
      {
        var p :| p in left;
        if e in held[p] { panes := panes + {p}; }
        held := held[p := Removed(held[p], e)];
        left := left - {p};
      }
    }

    /** cancel's lock region: the row leaves the store and every list; the panes that listed it are to be armed. */
    method Cancel(e: EventId) returns (found: bool, panes: set<Pane>)
      modifies this`store, this`held
      ensures found <==> e in old(store)
      ensures !found ==> store == old(store) && held == old(held) && panes == {}
      ensures found ==> store == old(store) - {e} && Sets(held) == Without(old(Sets(held)), e) &&
                        panes == Listing(old(held), e)
    {
      panes := {};
      found := e in store;
      if !found { return; }
      store := store - {e};
      panes := Unlist(e);
      RemovedEverywhere(old(held), held, e);
    }
  }

  lemma AllDirectives(items: map<EventId, Row>, directives: map<EventId, Row>)
    requires directives == Directives(items)
    ensures directives.Keys == items.Keys ==> directives == items
  {
  }

  /** The panes whose list names the event. */
  function Listing(held: Lists, e: EventId): set<Pane> { set p | p in held && e in held[p] }

  /** They are the panes the state machine owes an arm after a cancel. */
  lemma ListingIsRegistered(held: Lists, e: EventId)
    ensures Listing(held, e) == set p | p in Sets(held) && e in Sets(held)[p]
  {
  }

  lemma RemovedEverywhere(was: Lists, now: Lists, e: EventId)
    requires now.Keys == was.Keys && forall p | p in now :: now[p] == Removed(was[p], e)
    ensures Sets(now) == Without(Sets(was), e)
  {
    forall p | p in now ensures Members(now[p]) == Members(was[p]) - {e} {
      RemovedMembers(was[p], e);
    }
  }
}
