/** Every step of the busy relay keeps its invariants. */
module BusyRelayProofs {
  import opened BusyRelay
  import opened BusyRelayInvariants
  import opened Options

  // ---------------------------------------------------------------- a step inside one delivery

  predicate InWork(place: Place) { !(place.Ended? || place.Unknown?) }

  /** Everything the invariants ask of one row of a release. */
  predicate PlaceOK(s: Node, row: Row, place: Place) {
    PlaceFacts(s, row, place) && PlaceTyped(s, row, place) && TakenAs(s, row) && WithinLife(s, row.eid) &&
    (row.eid in s.store ==> ReceiptOf(s, s.store[row.eid]) && s.store[row.eid].eid == row.eid && row.eid !in s.cancelled) &&
    (s.applyDedupe && row.eid in s.delivered && row.eid !in s.edited && (row.eid in s.store || InWork(place)) ==> place == Noted)
  }

  predicate RowOK(s: Node, th: Thread, e: EventId)
    requires th.Delivering? && e in th.items
  {
    th.items[e].eid == e && PlaceOK(s, th.items[e], PlaceOf(th, e))
  }

  predicate ReleaseOK(s: Node, t: nat) {
    s.mode.Running? && IsDelivering(s, t) &&
    forall e | e in s.threads[t].items :: RowOK(s, s.threads[t], e)
  }

  predicate SameRow(s: Node, s': Node, e: EventId) {
    (e in s.store <==> e in s'.store) && (e in s.store ==> s.store[e] == s'.store[e]) &&
    (e in s.delivered <==> e in s'.delivered) && (e in s.delivered ==> s.delivered[e] == s'.delivered[e]) &&
    (e in s.typed <==> e in s'.typed) && (e in s.typed ==> s.typed[e] == s'.typed[e]) &&
    (e in s.cancelled <==> e in s'.cancelled) && (e in s.edited <==> e in s'.edited)
  }

  /** A stored row is the one that was stored before, or a well-formed row nobody cancelled. */
  ghost predicate StoreStep(s: Node, s': Node) {
    forall e | e in s'.store ::
      (e in s.store && s'.store[e] == s.store[e] && (e !in s.cancelled ==> e !in s'.cancelled)) ||
      (RowShape(s.seen, e, s'.store[e]) && e !in s'.cancelled)
  }

  /** s' differs from s only in thread t, in rows t owns, and in what is registered for its pane. */
  ghost predicate DeliveryStep(s: Node, s': Node, t: nat) {
    IsDelivering(s, t) && IsDelivering(s', t) && s'.mode == s.mode && s.mode.Running? &&
    s'.threads == s.threads[t := s'.threads[t]] && s'.next == s.next && s'.waits == s.waits &&
    s'.threads[t].pane == s.threads[t].pane && s'.threads[t].items == s.threads[t].items &&
    s'.inflight == s.inflight && s'.acks == s.acks && s'.seen == s.seen && s'.applyDedupe == s.applyDedupe &&
    s'.cut == s.cut && s'.taken == s.taken && s'.edited <= s.edited && s.delivered.Keys <= s'.delivered.Keys &&
    (forall e | e !in s.threads[t].items :: SameRow(s, s', e)) &&
    (s'.held == s.held || s'.held == s.held[s.threads[t].pane := RowsAt(s'.store, s.threads[t].pane)])
  }

  lemma DeliveryFrame(s: Node, s': Node, t: nat, each: bool)
    requires Core(s) && DeliveryStep(s, s', t) && StoreStep(s, s') && ThreadShape(s'.seen, s'.threads[t]) && ReleaseOK(s', t)
    ensures Core(s')
    ensures Awake(s, each) ==> Awake(s', each)
  {
    DeliveryShape(s, s', t);
    DeliveryOwnership(s, s', t);
    DeliveryRows(s, s', t);
    if Awake(s, each) { DeliveryCover(s, s', t, each); }
  }

  lemma DeliveryShape(s: Node, s': Node, t: nat)
    requires Shape(s) && DeliveryStep(s, s', t) && StoreStep(s, s') && ThreadShape(s'.seen, s'.threads[t])
    ensures Shape(s')
  {
    assert WaitsShape(s');
    forall e | e in s'.delivered || e in s'.cancelled ensures e in s'.seen {
      if e in s.threads[t].items {
        assert ThreadShape(s.seen, s.threads[t]);
      } else {
        assert SameRow(s, s', e);
      }
    }
  }

  lemma DeliveryOwnership(s: Node, s': Node, t: nat)
    requires Ownership(s) && DeliveryStep(s, s', t)
    ensures Ownership(s')
  {
    assert forall u, e :: Owner(s', u, e) <==> Owner(s, u, e);
    forall e | e in s'.inflight ensures exists u :: Owner(s', u, e) {
      var u :| Owner(s, u, e);
      assert Owner(s', u, e);
    }
  }

  lemma DeliveryCover(s: Node, s': Node, t: nat, each: bool)
    requires Ownership(s) && Awake(s, each) && DeliveryStep(s, s', t)
    ensures Awake(s', each)
  {
    var p := s.threads[t].pane;
    assert ReconciledBy(s', t, p) && CaredBy(s', t, p);
    forall e | Loose(s', e)
      ensures RegisteredAt(s', s'.store[e].pane, e, each) && CoveredPane(s', s'.store[e].pane)
    {
      assert !Owner(s, t, e);
      assert SameRow(s, s', e) && Loose(s, e);
      var q := s.store[e].pane;
      if q != p {
        var u :| CaredBy(s, u, q);
        assert u != t && CaredBy(s', u, q);
        assert HeldAt(s', q) == HeldAt(s, q);
        if !InList(s, q, e, each) {
          var v :| ReconciledBy(s, v, q);
          assert v != t && ReconciledBy(s', v, q);
        }
      }
    }
  }

  lemma SameFacts(s: Node, s': Node, row: Row, place: Place)
    requires SameRow(s, s', row.eid) && PlaceFacts(s, row, place)
    ensures PlaceFacts(s', row, place)
  {
  }

  lemma SameTyped(s: Node, s': Node, row: Row, place: Place)
    requires SameRow(s, s', row.eid) && s'.cut == s.cut && PlaceTyped(s, row, place)
    ensures PlaceTyped(s', row, place)
  {
  }

  /** Nothing is known of the text taken for the event that was not known before. */
  predicate SameTaken(s: Node, s': Node, e: EventId) {
    (e in s.taken <==> e in s'.taken) && (e in s.taken ==> s'.taken[e] == s.taken[e])
  }

  /** A row the step does not touch stays in order. */
  lemma SameRowOK(s: Node, s': Node, row: Row, place: Place)
    requires PlaceOK(s, row, place) && SameRow(s, s', row.eid)
    requires s'.cut == s.cut && SameTaken(s, s', row.eid) && s'.applyDedupe == s.applyDedupe
    requires row.eid in s.seen ==> row.eid in s'.seen && s'.seen[row.eid] == s.seen[row.eid]
    ensures PlaceOK(s', row, place)
  {
    SameFacts(s, s', row, place);
    SameTyped(s, s', row, place);
  }

  lemma DeliveryOwnedRow(s: Node, s': Node, t: nat, u: nat, e: EventId)
    requires Core(s) && DeliveryStep(s, s', t) && Owner(s', u, e)
    requires u == t ==> RowOK(s', s'.threads[t], e)
    ensures RowOK(s', s'.threads[u], e)
  {
    if u != t {
      assert Owner(s, u, e) && !Owner(s, t, e);
      OwnRow(s, u, e);
      SameRowOK(s, s', s.threads[u].items[e], PlaceOf(s.threads[u], e));
    }
  }

  /** What the invariants ask of any row, owned or not. */
  ghost predicate AnyRow(s: Node, e: EventId) {
    (e in s.store ==> ReceiptOf(s, s.store[e])) &&
    (s.applyDedupe && e in s.store && e in s.delivered && e !in s.edited ==> exists u :: RecordedBy(s, u, e)) &&
    WithinLife(s, e) &&
    (Loose(s, e) ==> Rest(s, s.store[e])) &&
    (e in s.acks ==> e !in s.store)
  }

  lemma DeliveryTakenRow(s: Node, s': Node, t: nat, e: EventId)
    requires Ownership(s) && Recovery(s) && DeliveryStep(s, s', t) && Owner(s, t, e) && RowOK(s', s'.threads[t], e)
    ensures AnyRow(s', e)
  {
    if s'.applyDedupe && e in s'.store && e in s'.delivered && e !in s'.edited {
      assert RecordedBy(s', t, e);
    }
  }

  lemma DeliveryOtherRow(s: Node, s': Node, t: nat, e: EventId)
    requires DeliveryStep(s, s', t) && !Owner(s, t, e) && AnyRow(s, e) && ThreadShape(s.seen, s.threads[t])
    requires e in s.store ==> s.store[e].eid == e
    ensures AnyRow(s', e)
  {
    assert SameRow(s, s', e);
    if s'.applyDedupe && e in s'.store && e in s'.delivered && e !in s'.edited {
      var u :| RecordedBy(s, u, e);
      assert u != t;
      assert RecordedBy(s', u, e);
    }
  }

  lemma EveryRow(s: Node, e: EventId)
    requires s.mode.Running? && TypedBound(s) && Receipts(s) && Recovery(s)
    ensures AnyRow(s, e)
  {
    assert WithinLife(s, e);
  }

  lemma DeliveryAnyRow(s: Node, s': Node, t: nat, e: EventId)
    requires Core(s) && DeliveryStep(s, s', t) && (Owner(s, t, e) ==> RowOK(s', s'.threads[t], e))
    ensures AnyRow(s', e)
  {
    if Owner(s, t, e) {
      DeliveryTakenRow(s, s', t, e);
    } else {
      EveryRow(s, e);
      assert e in s.store ==> RowShape(s.seen, e, s.store[e]);
      DeliveryOtherRow(s, s', t, e);
    }
  }

  lemma OwnedFrom(s: Node, t: nat, e: EventId)
    requires Owner(s, t, e) && RowOK(s, s.threads[t], e)
    ensures s.threads[t].items[e].eid == e && TakenAs(s, s.threads[t].items[e])
    ensures PlaceFacts(s, s.threads[t].items[e], PlaceOf(s.threads[t], e))
    ensures PlaceTyped(s, s.threads[t].items[e], PlaceOf(s.threads[t], e))
    ensures s.applyDedupe && e in s.threads[t].todo && e in s.delivered && e !in s.edited ==> RecordedBy(s, t, e)
  {
  }

  /** The invariants about rows, put together from every single row. */
  lemma FromRows(s: Node)
    requires s.mode.Running? && (forall e :: AnyRow(s, e)) && (forall t, e | Owner(s, t, e) :: RowOK(s, s.threads[t], e))
    ensures Facts(s) && TypedBound(s) && Receipts(s)
  {
    forall t, e | Owner(s, t, e)
      ensures s.threads[t].items[e].eid == e && TakenAs(s, s.threads[t].items[e])
      ensures PlaceFacts(s, s.threads[t].items[e], PlaceOf(s.threads[t], e))
      ensures PlaceTyped(s, s.threads[t].items[e], PlaceOf(s.threads[t], e))
      ensures s.applyDedupe && e in s.threads[t].todo && e in s.delivered && e !in s.edited ==> RecordedBy(s, t, e)
    {
      assert RowOK(s, s.threads[t], e);
      OwnedFrom(s, t, e);
    }
    forall e
      ensures (e in s.store ==> ReceiptOf(s, s.store[e])) && (Loose(s, e) ==> Rest(s, s.store[e])) && WithinLife(s, e)
      ensures s.applyDedupe && e in s.store && e in s.delivered && e !in s.edited ==> exists u :: RecordedBy(s, u, e)
    {
      assert AnyRow(s, e);
    }
  }

  lemma DeliveryRecovery(s: Node, s': Node, t: nat)
    requires Recovery(s) && DeliveryStep(s, s', t) && forall e :: AnyRow(s', e)
    ensures Recovery(s')
  {
    forall e | e in s'.acks ensures e !in s'.store { assert AnyRow(s', e); }
  }

  lemma DeliveryRows(s: Node, s': Node, t: nat)
    requires Core(s) && DeliveryStep(s, s', t)
    requires forall e | e in s.threads[t].items :: RowOK(s', s'.threads[t], e)
    ensures Facts(s') && TypedBound(s') && Receipts(s') && Recovery(s')
  {
    forall u, e | Owner(s', u, e) ensures RowOK(s', s'.threads[u], e) { DeliveryOwnedRow(s, s', t, u, e); }
    forall e ensures AnyRow(s', e) { DeliveryAnyRow(s, s', t, e); }
    FromRows(s');
    DeliveryRecovery(s, s', t);
  }

  /** What the invariants say about the rows of one release. */
  lemma OwnRecord(s: Node, t: nat, e: EventId)
    requires Shape(s) && Ownership(s) && Receipts(s) && Owner(s, t, e)
    requires s.applyDedupe && e in s.delivered && e !in s.edited && (e in s.store || e in s.threads[t].todo)
    ensures InRecord(s.threads[t], e)
  {
    if e in s.store {
      var u :| RecordedBy(s, u, e);
      assert Owner(s, u, e);
    } else {
      assert RecordedBy(s, t, e);
    }
  }

  lemma OwnRow(s: Node, t: nat, e: EventId)
    requires Shape(s) && Ownership(s) && Facts(s) && TypedBound(s) && Receipts(s) && Owner(s, t, e)
    ensures RowOK(s, s.threads[t], e)
  {
    assert WithinLife(s, e) && ThreadShape(s.seen, s.threads[t]);
    assert e in s.store ==> RowShape(s.seen, e, s.store[e]);
    if s.applyDedupe && e in s.delivered && e !in s.edited && (e in s.store || e in s.threads[t].todo) {
      OwnRecord(s, t, e);
    }
  }

  lemma OwnRows(s: Node, t: nat)
    requires Core(s) && IsDelivering(s, t)
    ensures Shape(s) && ReleaseOK(s, t)
  {
    forall e | e in s.threads[t].items ensures RowOK(s, s.threads[t], e) {
      assert Owner(s, t, e);
      OwnRow(s, t, e);
    }
  }

  lemma DropRowFrame(s: Node, t: nat, e: EventId, why: Why)
    requires Shape(s) && s.mode.Running? && IdleRow(s, t, e) && why != Unproven
    ensures DeliveryStep(s, DoDropRow(s, t, e, why), t) && StoreStep(s, DoDropRow(s, t, e, why))
  {
    assert ThreadShape(s.seen, s.threads[t]);
  }

  lemma DropRowThread(s: Node, t: nat, e: EventId, why: Why)
    requires IdleRow(s, t, e) && why != Unproven && ThreadShape(s.seen, s.threads[t])
    ensures ThreadShape(s.seen, DoDropRow(s, t, e, why).threads[t])
  {
  }

  lemma DropRowRow(s: Node, t: nat, e: EventId, why: Why, x: EventId)
    requires IdleRow(s, t, e) && why != Unproven && ThreadShape(s.seen, s.threads[t])
    requires x in s.threads[t].items && RowOK(s, s.threads[t], x)
    ensures RowOK(DoDropRow(s, t, e, why), DoDropRow(s, t, e, why).threads[t], x)
  {
    var s' := DoDropRow(s, t, e, why);
    if !(x == e) {
      assert PlaceOf(s'.threads[t], x) == PlaceOf(s.threads[t], x);
      SameRowOK(s, s', s.threads[t].items[x], PlaceOf(s.threads[t], x));
    }
  }

  lemma KeepDropRow(s: Node, t: nat, e: EventId, why: Why, each: bool)
    requires Core(s) && IdleRow(s, t, e) && why != Unproven
    ensures Core(DoDropRow(s, t, e, why))
    ensures Awake(s, each) ==> Awake(DoDropRow(s, t, e, why), each)
  {
    OwnRows(s, t);
    DropRowFrame(s, t, e, why);
    DropRowThread(s, t, e, why);
    forall x | x in s.threads[t].items { DropRowRow(s, t, e, why, x); }
    DeliveryFrame(s, DoDropRow(s, t, e, why), t, each);
  }

  lemma LeaveRowFrame(s: Node, t: nat, e: EventId)
    requires Shape(s) && s.mode.Running? && IdleRow(s, t, e)
    ensures DeliveryStep(s, DoLeaveRow(s, t, e), t) && StoreStep(s, DoLeaveRow(s, t, e))
  {
    assert ThreadShape(s.seen, s.threads[t]);
  }

  lemma LeaveRowThread(s: Node, t: nat, e: EventId)
    requires IdleRow(s, t, e) && ThreadShape(s.seen, s.threads[t])
    ensures ThreadShape(s.seen, DoLeaveRow(s, t, e).threads[t])
  {
  }

  lemma LeaveRowRow(s: Node, t: nat, e: EventId, x: EventId)
    requires IdleRow(s, t, e) && ThreadShape(s.seen, s.threads[t])
    requires x in s.threads[t].items && RowOK(s, s.threads[t], x)
    ensures RowOK(DoLeaveRow(s, t, e), DoLeaveRow(s, t, e).threads[t], x)
  {
    var s' := DoLeaveRow(s, t, e);
    if !(x == e) {
      assert PlaceOf(s'.threads[t], x) == PlaceOf(s.threads[t], x);
      SameRowOK(s, s', s.threads[t].items[x], PlaceOf(s.threads[t], x));
    }
  }

  lemma KeepLeaveRow(s: Node, t: nat, e: EventId, each: bool)
    requires Core(s) && IdleRow(s, t, e)
    ensures Core(DoLeaveRow(s, t, e))
    ensures Awake(s, each) ==> Awake(DoLeaveRow(s, t, e), each)
  {
    OwnRows(s, t);
    LeaveRowFrame(s, t, e);
    LeaveRowThread(s, t, e);
    forall x | x in s.threads[t].items { LeaveRowRow(s, t, e, x); }
    DeliveryFrame(s, DoLeaveRow(s, t, e), t, each);
  }

  lemma HoldAgainFrame(s: Node, t: nat, e: EventId)
    requires Shape(s) && s.mode.Running? && IdleRow(s, t, e) && s.threads[t].items[e].attempts + 1 < MAX_ATTEMPTS
    ensures DeliveryStep(s, DoHoldAgain(s, t, e), t) && StoreStep(s, DoHoldAgain(s, t, e))
  {
    assert ThreadShape(s.seen, s.threads[t]);
  }

  lemma HoldAgainThread(s: Node, t: nat, e: EventId)
    requires IdleRow(s, t, e) && s.threads[t].items[e].attempts + 1 < MAX_ATTEMPTS && ThreadShape(s.seen, s.threads[t])
    ensures ThreadShape(s.seen, DoHoldAgain(s, t, e).threads[t])
  {
  }

  lemma HoldAgainRow(s: Node, t: nat, e: EventId, x: EventId)
    requires IdleRow(s, t, e) && s.threads[t].items[e].attempts + 1 < MAX_ATTEMPTS && ThreadShape(s.seen, s.threads[t])
    requires x in s.threads[t].items && RowOK(s, s.threads[t], x)
    ensures RowOK(DoHoldAgain(s, t, e), DoHoldAgain(s, t, e).threads[t], x)
  {
    var s' := DoHoldAgain(s, t, e);
    if !(x == e) {
      assert PlaceOf(s'.threads[t], x) == PlaceOf(s.threads[t], x);
      SameRowOK(s, s', s.threads[t].items[x], PlaceOf(s.threads[t], x));
    }
  }

  lemma KeepHoldAgain(s: Node, t: nat, e: EventId, each: bool)
    requires Core(s) && IdleRow(s, t, e) && s.threads[t].items[e].attempts + 1 < MAX_ATTEMPTS
    ensures Core(DoHoldAgain(s, t, e))
    ensures Awake(s, each) ==> Awake(DoHoldAgain(s, t, e), each)
  {
    OwnRows(s, t);
    HoldAgainFrame(s, t, e);
    HoldAgainThread(s, t, e);
    forall x | x in s.threads[t].items { HoldAgainRow(s, t, e, x); }
    DeliveryFrame(s, DoHoldAgain(s, t, e), t, each);
  }

  lemma TypeGroupFrame(s: Node, t: nat, g: set<EventId>)
    requires Shape(s) && s.mode.Running? && Between(s, t) && CanType(s.threads[t], g)
    ensures DeliveryStep(s, DoTypeGroup(s, t, g), t) && StoreStep(s, DoTypeGroup(s, t, g))
  {
    assert ThreadShape(s.seen, s.threads[t]);
  }

  lemma TypeGroupThread(s: Node, t: nat, g: set<EventId>)
    requires Between(s, t) && CanType(s.threads[t], g) && ThreadShape(s.seen, s.threads[t])
    ensures ThreadShape(s.seen, DoTypeGroup(s, t, g).threads[t])
  {
  }

  lemma TypeGroupRow(s: Node, t: nat, g: set<EventId>, x: EventId)
    requires Between(s, t) && CanType(s.threads[t], g) && ThreadShape(s.seen, s.threads[t])
    requires x in s.threads[t].items && RowOK(s, s.threads[t], x)
    ensures RowOK(DoTypeGroup(s, t, g), DoTypeGroup(s, t, g).threads[t], x)
  {
    var s' := DoTypeGroup(s, t, g);
    if !(x in g) {
      assert PlaceOf(s'.threads[t], x) == PlaceOf(s.threads[t], x);
      SameRowOK(s, s', s.threads[t].items[x], PlaceOf(s.threads[t], x));
    }
  }

  lemma KeepTypeGroup(s: Node, t: nat, g: set<EventId>, each: bool)
    requires Core(s) && Between(s, t) && CanType(s.threads[t], g)
    ensures Core(DoTypeGroup(s, t, g))
    ensures Awake(s, each) ==> Awake(DoTypeGroup(s, t, g), each)
  {
    OwnRows(s, t);
    TypeGroupFrame(s, t, g);
    TypeGroupThread(s, t, g);
    forall x | x in s.threads[t].items { TypeGroupRow(s, t, g, x); }
    DeliveryFrame(s, DoTypeGroup(s, t, g), t, each);
  }

  lemma TypeAgainFrame(s: Node, t: nat)
    requires Shape(s) && s.mode.Running? && IsDelivering(s, t) && CanTypeAgain(s.threads[t])
    ensures DeliveryStep(s, DoTypeAgain(s, t), t) && StoreStep(s, DoTypeAgain(s, t))
  {
    assert ThreadShape(s.seen, s.threads[t]);
  }

  lemma TypeAgainThread(s: Node, t: nat)
    requires IsDelivering(s, t) && CanTypeAgain(s.threads[t]) && ThreadShape(s.seen, s.threads[t])
    ensures ThreadShape(s.seen, DoTypeAgain(s, t).threads[t])
  {
  }

  lemma TypeAgainRow(s: Node, t: nat, x: EventId)
    requires IsDelivering(s, t) && CanTypeAgain(s.threads[t]) && ThreadShape(s.seen, s.threads[t])
    requires x in s.threads[t].items && RowOK(s, s.threads[t], x)
    ensures RowOK(DoTypeAgain(s, t), DoTypeAgain(s, t).threads[t], x)
  {
    var s' := DoTypeAgain(s, t);
    if !(x in s.threads[t].phase.group) {
      assert PlaceOf(s'.threads[t], x) == PlaceOf(s.threads[t], x);
      SameRowOK(s, s', s.threads[t].items[x], PlaceOf(s.threads[t], x));
    }
  }

  lemma KeepTypeAgain(s: Node, t: nat, each: bool)
    requires Core(s) && IsDelivering(s, t) && CanTypeAgain(s.threads[t])
    ensures Core(DoTypeAgain(s, t))
    ensures Awake(s, each) ==> Awake(DoTypeAgain(s, t), each)
  {
    OwnRows(s, t);
    TypeAgainFrame(s, t);
    TypeAgainThread(s, t);
    forall x | x in s.threads[t].items { TypeAgainRow(s, t, x); }
    DeliveryFrame(s, DoTypeAgain(s, t), t, each);
  }

  lemma JudgeFrame(s: Node, t: nat, v: Verdict)
    requires Shape(s) && s.mode.Running? && IsDelivering(s, t) && s.threads[t].phase.Typed?
    requires v.Retryable? ==> v.maxAttempts <= MAX_ATTEMPTS
    ensures DeliveryStep(s, DoJudge(s, t, v), t) && StoreStep(s, DoJudge(s, t, v))
  {
    assert ThreadShape(s.seen, s.threads[t]);
  }

  lemma JudgeThread(s: Node, t: nat, v: Verdict)
    requires IsDelivering(s, t) && s.threads[t].phase.Typed? && ThreadShape(s.seen, s.threads[t])
    requires v.Retryable? ==> v.maxAttempts <= MAX_ATTEMPTS
    ensures ThreadShape(s.seen, DoJudge(s, t, v).threads[t])
  {
  }

  lemma JudgeRow(s: Node, t: nat, v: Verdict, x: EventId)
    requires IsDelivering(s, t) && s.threads[t].phase.Typed? && ThreadShape(s.seen, s.threads[t])
    requires v.Retryable? ==> v.maxAttempts <= MAX_ATTEMPTS
    requires x in s.threads[t].items && RowOK(s, s.threads[t], x)
    ensures RowOK(DoJudge(s, t, v), DoJudge(s, t, v).threads[t], x)
  {
    var s' := DoJudge(s, t, v);
    if !(x in s.threads[t].phase.group) {
      assert PlaceOf(s'.threads[t], x) == PlaceOf(s.threads[t], x);
      SameRowOK(s, s', s.threads[t].items[x], PlaceOf(s.threads[t], x));
    }
  }

  lemma KeepJudge(s: Node, t: nat, v: Verdict, each: bool)
    requires Core(s) && IsDelivering(s, t) && s.threads[t].phase.Typed? && (v.Retryable? ==> v.maxAttempts <= MAX_ATTEMPTS)
    ensures Core(DoJudge(s, t, v))
    ensures Awake(s, each) ==> Awake(DoJudge(s, t, v), each)
  {
    OwnRows(s, t);
    JudgeFrame(s, t, v);
    JudgeThread(s, t, v);
    forall x | x in s.threads[t].items { JudgeRow(s, t, v, x); }
    DeliveryFrame(s, DoJudge(s, t, v), t, each);
  }

  lemma SettleDropFrame(s: Node, t: nat, e: EventId)
    requires Shape(s) && s.mode.Running? && JudgedRow(s, t, e)
    ensures DeliveryStep(s, DoSettleDrop(s, t, e), t) && StoreStep(s, DoSettleDrop(s, t, e))
  {
    assert ThreadShape(s.seen, s.threads[t]);
  }

  lemma SettleDropThread(s: Node, t: nat, e: EventId)
    requires JudgedRow(s, t, e) && ThreadShape(s.seen, s.threads[t])
    ensures ThreadShape(s.seen, DoSettleDrop(s, t, e).threads[t])
  {
  }

  lemma SettleDropRow(s: Node, t: nat, e: EventId, x: EventId)
    requires JudgedRow(s, t, e) && ThreadShape(s.seen, s.threads[t])
    requires x in s.threads[t].items && RowOK(s, s.threads[t], x)
    ensures RowOK(DoSettleDrop(s, t, e), DoSettleDrop(s, t, e).threads[t], x)
  {
    var s' := DoSettleDrop(s, t, e);
    if !(x == e) {
      assert PlaceOf(s'.threads[t], x) == PlaceOf(s.threads[t], x);
      SameRowOK(s, s', s.threads[t].items[x], PlaceOf(s.threads[t], x));
    }
  }

  lemma KeepSettleDrop(s: Node, t: nat, e: EventId, each: bool)
    requires Core(s) && JudgedRow(s, t, e)
    ensures Core(DoSettleDrop(s, t, e))
    ensures Awake(s, each) ==> Awake(DoSettleDrop(s, t, e), each)
  {
    OwnRows(s, t);
    SettleDropFrame(s, t, e);
    SettleDropThread(s, t, e);
    forall x | x in s.threads[t].items { SettleDropRow(s, t, e, x); }
    DeliveryFrame(s, DoSettleDrop(s, t, e), t, each);
  }

  lemma SettleRecordFrame(s: Node, t: nat, e: EventId)
    requires Shape(s) && s.mode.Running? && JudgedRow(s, t, e)
    ensures DeliveryStep(s, DoSettleRecord(s, t, e), t) && StoreStep(s, DoSettleRecord(s, t, e))
  {
    assert ThreadShape(s.seen, s.threads[t]);
  }

  lemma SettleRecordThread(s: Node, t: nat, e: EventId)
    requires JudgedRow(s, t, e) && ThreadShape(s.seen, s.threads[t])
    ensures ThreadShape(s.seen, DoSettleRecord(s, t, e).threads[t])
  {
  }

  lemma SettleRecordRow(s: Node, t: nat, e: EventId, x: EventId)
    requires JudgedRow(s, t, e) && ThreadShape(s.seen, s.threads[t])
    requires x in s.threads[t].items && RowOK(s, s.threads[t], x)
    ensures RowOK(DoSettleRecord(s, t, e), DoSettleRecord(s, t, e).threads[t], x)
  {
    var s' := DoSettleRecord(s, t, e);
    if !(x == e) {
      assert PlaceOf(s'.threads[t], x) == PlaceOf(s.threads[t], x);
      SameRowOK(s, s', s.threads[t].items[x], PlaceOf(s.threads[t], x));
    }
  }

  lemma KeepSettleRecord(s: Node, t: nat, e: EventId, each: bool)
    requires Core(s) && JudgedRow(s, t, e)
    ensures Core(DoSettleRecord(s, t, e))
    ensures Awake(s, each) ==> Awake(DoSettleRecord(s, t, e), each)
  {
    OwnRows(s, t);
    SettleRecordFrame(s, t, e);
    SettleRecordThread(s, t, e);
    forall x | x in s.threads[t].items { SettleRecordRow(s, t, e, x); }
    DeliveryFrame(s, DoSettleRecord(s, t, e), t, each);
  }

  lemma SettleDeleteFrame(s: Node, t: nat)
    requires Shape(s) && s.mode.Running? && IsDelivering(s, t) && s.threads[t].phase.Recorded?
    ensures DeliveryStep(s, DoSettleDelete(s, t), t) && StoreStep(s, DoSettleDelete(s, t))
  {
    assert ThreadShape(s.seen, s.threads[t]);
  }

  lemma SettleDeleteThread(s: Node, t: nat)
    requires IsDelivering(s, t) && s.threads[t].phase.Recorded? && ThreadShape(s.seen, s.threads[t])
    ensures ThreadShape(s.seen, DoSettleDelete(s, t).threads[t])
  {
  }

  lemma SettleDeleteRow(s: Node, t: nat, x: EventId)
    requires IsDelivering(s, t) && s.threads[t].phase.Recorded? && ThreadShape(s.seen, s.threads[t])
    requires x in s.threads[t].items && RowOK(s, s.threads[t], x)
    ensures RowOK(DoSettleDelete(s, t), DoSettleDelete(s, t).threads[t], x)
  {
    var s' := DoSettleDelete(s, t);
    if !(x == s.threads[t].phase.eid) {
      assert PlaceOf(s'.threads[t], x) == PlaceOf(s.threads[t], x);
      SameRowOK(s, s', s.threads[t].items[x], PlaceOf(s.threads[t], x));
    }
  }

  lemma KeepSettleDelete(s: Node, t: nat, each: bool)
    requires Core(s) && IsDelivering(s, t) && s.threads[t].phase.Recorded?
    ensures Core(DoSettleDelete(s, t))
    ensures Awake(s, each) ==> Awake(DoSettleDelete(s, t), each)
  {
    OwnRows(s, t);
    SettleDeleteFrame(s, t);
    SettleDeleteThread(s, t);
    forall x | x in s.threads[t].items { SettleDeleteRow(s, t, x); }
    DeliveryFrame(s, DoSettleDelete(s, t), t, each);
  }

  lemma SettleRetryFrame(s: Node, t: nat, e: EventId)
    requires Shape(s) && s.mode.Running? && JudgedRow(s, t, e) && Retries(s.threads[t].phase.verdict, s.threads[t].items[e])
    ensures DeliveryStep(s, DoSettleRetry(s, t, e), t) && StoreStep(s, DoSettleRetry(s, t, e))
  {
    assert ThreadShape(s.seen, s.threads[t]);
  }

  lemma SettleRetryThread(s: Node, t: nat, e: EventId)
    requires JudgedRow(s, t, e) && Retries(s.threads[t].phase.verdict, s.threads[t].items[e]) && ThreadShape(s.seen, s.threads[t])
    ensures ThreadShape(s.seen, DoSettleRetry(s, t, e).threads[t])
  {
  }

  lemma SettleRetryRow(s: Node, t: nat, e: EventId, x: EventId)
    requires JudgedRow(s, t, e) && Retries(s.threads[t].phase.verdict, s.threads[t].items[e]) && ThreadShape(s.seen, s.threads[t])
    requires x in s.threads[t].items && RowOK(s, s.threads[t], x)
    ensures RowOK(DoSettleRetry(s, t, e), DoSettleRetry(s, t, e).threads[t], x)
  {
    var s' := DoSettleRetry(s, t, e);
    if !(x == e) {
      assert PlaceOf(s'.threads[t], x) == PlaceOf(s.threads[t], x);
      SameRowOK(s, s', s.threads[t].items[x], PlaceOf(s.threads[t], x));
    }
  }

  lemma KeepSettleRetry(s: Node, t: nat, e: EventId, each: bool)
    requires Core(s) && JudgedRow(s, t, e) && Retries(s.threads[t].phase.verdict, s.threads[t].items[e])
    ensures Core(DoSettleRetry(s, t, e))
    ensures Awake(s, each) ==> Awake(DoSettleRetry(s, t, e), each)
  {
    OwnRows(s, t);
    SettleRetryFrame(s, t, e);
    SettleRetryThread(s, t, e);
    forall x | x in s.threads[t].items { SettleRetryRow(s, t, e, x); }
    DeliveryFrame(s, DoSettleRetry(s, t, e), t, each);
  }

  lemma ReinsertFrame(s: Node, t: nat)
    requires Shape(s) && s.mode.Running? && IsDelivering(s, t) && s.threads[t].phase.Rehold?
    ensures DeliveryStep(s, DoReinsert(s, t), t) && StoreStep(s, DoReinsert(s, t))
  {
    assert ThreadShape(s.seen, s.threads[t]);
  }

  lemma ReinsertThread(s: Node, t: nat)
    requires IsDelivering(s, t) && s.threads[t].phase.Rehold? && ThreadShape(s.seen, s.threads[t])
    ensures ThreadShape(s.seen, DoReinsert(s, t).threads[t])
  {
  }

  lemma ReinsertRow(s: Node, t: nat, x: EventId)
    requires IsDelivering(s, t) && s.threads[t].phase.Rehold? && ThreadShape(s.seen, s.threads[t])
    requires x in s.threads[t].items && RowOK(s, s.threads[t], x)
    ensures RowOK(DoReinsert(s, t), DoReinsert(s, t).threads[t], x)
  {
    var s' := DoReinsert(s, t);
    if !(x == s.threads[t].phase.row.eid) {
      assert PlaceOf(s'.threads[t], x) == PlaceOf(s.threads[t], x);
      SameRowOK(s, s', s.threads[t].items[x], PlaceOf(s.threads[t], x));
    }
  }

  lemma KeepReinsert(s: Node, t: nat, each: bool)
    requires Core(s) && IsDelivering(s, t) && s.threads[t].phase.Rehold?
    ensures Core(DoReinsert(s, t))
    ensures Awake(s, each) ==> Awake(DoReinsert(s, t), each)
  {
    OwnRows(s, t);
    ReinsertFrame(s, t);
    ReinsertThread(s, t);
    forall x | x in s.threads[t].items { ReinsertRow(s, t, x); }
    DeliveryFrame(s, DoReinsert(s, t), t, each);
  }

  // ---------------------------------------------------------------- steps that move no row

  /** s' differs from s only in the waits, in what is registered, and in threads that deliver nothing. */
  ghost predicate QuietStep(s: Node, s': Node) {
    s.mode.Running? && s' == s.(held := s'.held, waits := s'.waits, threads := s'.threads, next := s'.next) &&
    forall t | IsDelivering(s, t) || IsDelivering(s', t) ::
      t in s.threads && t in s'.threads && s.threads[t] == s'.threads[t]
  }

  lemma QuietFrame(s: Node, s': Node)
    requires Core(s) && QuietStep(s, s') && Shape(s')
    ensures Core(s')
  {
    QuietOwnership(s, s');
    QuietRows(s, s');
    QuietReceipts(s, s');
  }

  lemma QuietOwnership(s: Node, s': Node)
    requires Ownership(s) && QuietStep(s, s')
    ensures Ownership(s')
  {
    assert forall t, e :: Owner(s', t, e) <==> Owner(s, t, e);
    forall e | e in s'.inflight ensures exists u :: Owner(s', u, e) {
      var u :| Owner(s, u, e);
      assert Owner(s', u, e);
    }
  }

  /** The invariants read nothing of a row but what a quiet step leaves alone. */
  lemma QuietPlace(s: Node, s': Node, row: Row, place: Place)
    requires QuietStep(s, s')
    ensures PlaceFacts(s, row, place) ==> PlaceFacts(s', row, place)
    ensures PlaceTyped(s, row, place) ==> PlaceTyped(s', row, place)
  {
  }

  lemma QuietRows(s: Node, s': Node)
    requires Facts(s) && TypedBound(s) && Recovery(s) && QuietStep(s, s')
    ensures Facts(s') && TypedBound(s') && Recovery(s')
  {
    assert forall e :: Loose(s', e) <==> Loose(s, e);
    assert forall e :: WithinLife(s, e) ==> WithinLife(s', e);
    forall t, e | Owner(s', t, e)
      ensures s'.threads[t].items[e].eid == e
      ensures PlaceFacts(s', s'.threads[t].items[e], PlaceOf(s'.threads[t], e))
      ensures PlaceTyped(s', s'.threads[t].items[e], PlaceOf(s'.threads[t], e))
    {
      assert Owner(s, t, e);
      QuietPlace(s, s', s.threads[t].items[e], PlaceOf(s.threads[t], e));
    }
  }

  lemma QuietReceipts(s: Node, s': Node)
    requires Receipts(s) && QuietStep(s, s')
    ensures Receipts(s')
  {
    assert forall t, e :: Owner(s', t, e) <==> Owner(s, t, e);
    assert forall t, e :: RecordedBy(s', t, e) <==> RecordedBy(s, t, e);
    forall e | s'.applyDedupe && e in s'.store && e in s'.delivered && e !in s'.edited
      ensures exists u :: RecordedBy(s', u, e)
    {
      var u :| RecordedBy(s, u, e);
      assert RecordedBy(s', u, e);
    }
  }

  ghost predicate CoveredExcept(s: Node, p: Pane) {
    forall e | Loose(s, e) && s.store[e].pane != p :: CoveredPane(s, s.store[e].pane)
  }

  /** Only the wait registered for the pane is told to stop. */
  lemma StoppedThread(s: Node, p: Pane, t: nat)
    requires t in s.threads
    ensures t in StopWait(s, p).threads
    ensures StopWait(s, p).threads[t] == (if p in s.waits && s.waits[p] == t then Cancelled(s.threads[t]) else s.threads[t])
  {
  }

  lemma StopWaitShape(s: Node, p: Pane)
    requires Shape(s) && s.mode.Running?
    ensures Shape(StopWait(s, p))
  {
    var s' := StopWait(s, p);
    assert s'.threads.Keys == s.threads.Keys && s' == s.(threads := s'.threads, waits := s'.waits);
    forall t | t in s'.threads
      ensures ThreadShape(s'.seen, s'.threads[t]) && t < s'.next && IsWait(s'.threads[t]) == IsWait(s.threads[t])
      ensures IsWait(s.threads[t]) ==> s'.threads[t].pane == s.threads[t].pane
    {
      StoppedThread(s, p, t);
      assert ThreadShape(s.seen, s.threads[t]);
    }
  }

  lemma StartWaitShape(s: Node, p: Pane)
    requires Shape(s) && s.mode.Running?
    ensures Shape(StartWait(s, p))
  {
  }

  lemma ArmShape(s: Node, p: Pane)
    requires Shape(s) && s.mode.Running?
    ensures Shape(ArmPane(s, p))
  {
    StopWaitShape(s, p);
    StartWaitShape(StopWait(s, p), p);
  }

  lemma ArmQuiet(s: Node, p: Pane)
    requires WaitsShape(s) && s.mode.Running?
    ensures QuietStep(s, ArmPane(s, p))
  {
    assert QuietStep(s, StopWait(s, p));
  }

  lemma CancelKeeps(th: Thread, q: Pane)
    ensures Reconciles(th, q) ==> Reconciles(Cancelled(th), q)
    ensures Cares(th, q) && !(IsWait(th) && th.pane == q) ==> Cares(Cancelled(th), q)
  {
  }

  /** Stopping p's wait takes no other pane's wait away, and no reconciling release. */
  lemma StopKeeps(s: Node, p: Pane, t: nat, q: Pane)
    requires WaitsShape(s)
    ensures ReconciledBy(s, t, q) ==> ReconciledBy(StopWait(s, p), t, q)
    ensures CaredBy(s, t, q) && q != p ==> CaredBy(StopWait(s, p), t, q)
  {
    if t in s.threads {
      StoppedThread(s, p, t);
      CancelKeeps(s.threads[t], q);
    }
  }

  lemma ArmKeeps(s: Node, p: Pane, t: nat, q: Pane)
    requires WaitsShape(s)
    ensures ReconciledBy(s, t, q) ==> ReconciledBy(ArmPane(s, p), t, q)
    ensures CaredBy(s, t, q) && q != p ==> CaredBy(ArmPane(s, p), t, q)
  {
    StopKeeps(s, p, t, q);
    StartKeeps(StopWait(s, p), p, t, q);
  }

  lemma StartKeeps(s: Node, p: Pane, t: nat, q: Pane)
    requires t in s.threads ==> t < s.next
    ensures ReconciledBy(s, t, q) ==> ReconciledBy(StartWait(s, p), t, q)
    ensures CaredBy(s, t, q) ==> CaredBy(StartWait(s, p), t, q)
    ensures CaredBy(StartWait(s, p), s.next, p)
  {
  }

  lemma CoverAll(s: Node, s': Node, p: Pane, each: bool)
    requires QuietStep(s, s') && Registered(s, each) && CoveredExcept(s, p)
    requires forall q, e | RegisteredAt(s, q, e, each) && (q != p ==> CoveredPane(s, q)) ::
               RegisteredAt(s', q, e, each) && CoveredPane(s', q)
    ensures Awake(s', each)
  {
    forall e | Loose(s', e)
      ensures RegisteredAt(s', s'.store[e].pane, e, each) && CoveredPane(s', s'.store[e].pane)
    {
      assert Loose(s, e);
      assert RegisteredAt(s, s.store[e].pane, e, each);
    }
  }

  /** Arming a pane covers it: by the new wait, or because every loose row is still to be reconciled. */
  lemma ArmCovers(s: Node, p: Pane, each: bool)
    requires WaitsShape(s) && Registered(s, each) && CoveredExcept(s, p) && s.mode.Running?
    ensures Awake(ArmPane(s, p), each)
  {
    ArmQuiet(s, p);
    forall q, e | RegisteredAt(s, q, e, each) && (q != p ==> CoveredPane(s, q))
      ensures RegisteredAt(ArmPane(s, p), q, e, each) && CoveredPane(ArmPane(s, p), q)
    {
      ArmCoversRow(s, p, e, q, each);
    }
    CoverAll(s, ArmPane(s, p), p, each);
  }

  lemma ArmCoversRow(s: Node, p: Pane, e: EventId, q: Pane, each: bool)
    requires WaitsShape(s) && RegisteredAt(s, q, e, each) && (q != p ==> CoveredPane(s, q))
    ensures RegisteredAt(ArmPane(s, p), q, e, each) && CoveredPane(ArmPane(s, p), q)
  {
    ArmHeld(s, p, q);
    if v :| ReconciledBy(s, v, q) {
      ArmReconciled(s, p, v, q);
    } else if q == p {
      ArmStarts(s, p);
    } else {
      var u :| CaredBy(s, u, q);
      ArmCared(s, p, u, q);
    }
  }

  lemma ArmHeld(s: Node, p: Pane, q: Pane)
    ensures HeldAt(ArmPane(s, p), q) == HeldAt(s, q)
  {
    assert ArmPane(s, p).held == s.held;
  }

  lemma ArmReconciled(s: Node, p: Pane, t: nat, q: Pane)
    requires WaitsShape(s) && ReconciledBy(s, t, q)
    ensures (exists u :: ReconciledBy(ArmPane(s, p), u, q)) && CoveredPane(ArmPane(s, p), q)
  {
    ArmKeeps(s, p, t, q);
    assert Reconciles(ArmPane(s, p).threads[t], q) ==> Cares(ArmPane(s, p).threads[t], q);
    assert CaredBy(ArmPane(s, p), t, q);
  }

  lemma ArmCared(s: Node, p: Pane, t: nat, q: Pane)
    requires WaitsShape(s) && CaredBy(s, t, q) && q != p
    ensures CoveredPane(ArmPane(s, p), q)
  {
    ArmKeeps(s, p, t, q);
  }

  lemma ArmStarts(s: Node, p: Pane)
    requires WaitsShape(s) && HeldAt(s, p) != {}
    ensures CoveredPane(ArmPane(s, p), p)
  {
    StartKeeps(StopWait(s, p), p, s.next, p);
    assert CaredBy(ArmPane(s, p), s.next, p);
  }

  /** A thread that cares for the pane and is not the wait registered for it. */
  predicate OtherCare(s: Node, u: nat, p: Pane) {
    CaredBy(s, u, p) && !(IsWait(s.threads[u]) && p in s.waits && s.waits[p] == u)
  }

  lemma ArmedCare(s: Node, p: Pane, u: nat)
    requires WaitsShape(s) && HeldAt(s, p) == {}
    ensures CaredBy(ArmPane(s, p), u, p) <==> OtherCare(s, u, p)
  {
    if u in s.threads { StoppedThread(s, p, u); }
  }

  /** After an arm something wakes for the pane exactly when its list is not empty, or another thread cares for it. */
  lemma ArmExactly(s: Node, p: Pane)
    requires WaitsShape(s)
    ensures CoveredPane(ArmPane(s, p), p) <==> HeldAt(s, p) != {} || exists u :: OtherCare(s, u, p)
  {
    if HeldAt(s, p) != {} {
      ArmStarts(s, p);
    } else {
      forall u ensures CaredBy(ArmPane(s, p), u, p) <==> OtherCare(s, u, p) { ArmedCare(s, p, u); }
    }
  }

  // ---------------------------------------------------------------- threads that deliver nothing

  /** Everything thread `was` does for a pane other than p, `now` does too. */
  ghost predicate Yields(was: Thread, now: Thread, p: Pane) {
    forall q :: (Reconciles(was, q) ==> Reconciles(now, q)) && (q != p && Cares(was, q) ==> Cares(now, q))
  }

  lemma PutQuiet(s: Node, t: nat, th: Thread)
    requires Shape(s) && t in s.threads && !s.threads[t].Delivering? && !th.Delivering?
    requires IsWait(th) ==> IsWait(s.threads[t]) && th.pane == s.threads[t].pane
    ensures Shape(Put(s, t, th)) && QuietStep(s, Put(s, t, th))
  {
  }

  lemma EndQuiet(s: Node, t: nat)
    requires Shape(s) && t in s.threads && !s.threads[t].Delivering?
    ensures Shape(End(s, t)) && QuietStep(s, End(s, t))
  {
  }

  lemma SpawnQuiet(s: Node, th: Thread)
    requires Shape(s) && s.mode.Running? && (th.Arming? || th.Resending?)
    ensures Shape(Spawn(s, th)) && QuietStep(s, Spawn(s, th))
  {
  }

  lemma PutCovers(s: Node, t: nat, th: Thread, p: Pane, each: bool)
    requires Awake(s, each) && s.mode.Running? && t in s.threads && Yields(s.threads[t], th, p)
    ensures Registered(Put(s, t, th), each) && CoveredExcept(Put(s, t, th), p)
  {
    var s' := Put(s, t, th);
    forall e | Loose(s', e)
      ensures RegisteredAt(s', s'.store[e].pane, e, each)
      ensures s'.store[e].pane != p ==> CoveredPane(s', s'.store[e].pane)
    {
      assert Loose(s, e);
      PutCoversRow(s, t, th, p, s.store[e].pane, e, each);
    }
  }

  lemma PutCoversRow(s: Node, t: nat, th: Thread, p: Pane, q: Pane, e: EventId, each: bool)
    requires RegisteredAt(s, q, e, each) && CoveredPane(s, q) && t in s.threads && Yields(s.threads[t], th, p)
    ensures RegisteredAt(Put(s, t, th), q, e, each)
    ensures q != p ==> CoveredPane(Put(s, t, th), q)
  {
    var s' := Put(s, t, th);
    if !InList(s, q, e, each) {
      var v :| ReconciledBy(s, v, q);
      assert ReconciledBy(s', v, q);
    }
    if q != p {
      var u :| CaredBy(s, u, q);
      assert CaredBy(s', u, q);
    }
  }

  lemma QuietTrans(a: Node, b: Node, c: Node)
    requires QuietStep(a, b) && QuietStep(b, c)
    ensures QuietStep(a, c)
  {
  }

  /** Thread t, which still owes p an arm or has no rows left to care for there, becomes `th`. */
  lemma KeepPut(s: Node, t: nat, th: Thread, p: Pane, each: bool)
    requires Core(s) && t in s.threads && !s.threads[t].Delivering? && !th.Delivering?
    requires IsWait(th) ==> IsWait(s.threads[t]) && th.pane == s.threads[t].pane
    requires Yields(s.threads[t], th, p) && Cares(th, p)
    ensures Core(Put(s, t, th))
    ensures Awake(s, each) ==> Awake(Put(s, t, th), each)
  {
    PutQuiet(s, t, th);
    QuietFrame(s, Put(s, t, th));
    if Awake(s, each) {
      PutCovers(s, t, th, p, each);
      CoverWith(Put(s, t, th), t, p);
    }
  }

  lemma CoverWith(s: Node, t: nat, p: Pane)
    requires CoveredExcept(s, p) && CaredBy(s, t, p)
    ensures Covered(s)
  {
  }

  lemma KeepArm(s: Node, t: nat, p: Pane, each: bool)
    requires Core(s) && t in s.threads && s.threads[t].Arming?
    ensures Core(DoArm(s, t, p))
    ensures Awake(s, each) ==> Awake(DoArm(s, t, p), each)
  {
    var th := Arming(s.threads[t].panes - {p});
    PutQuiet(s, t, th);
    var m := Put(s, t, th);
    ArmShape(m, p);
    ArmQuiet(m, p);
    QuietTrans(s, m, ArmPane(m, p));
    QuietFrame(s, ArmPane(m, p));
    if Awake(s, each) {
      PutCovers(s, t, th, p, each);
      ArmCovers(m, p, each);
    }
  }

  lemma KeepWakeUp(s: Node, t: nat, each: bool)
    requires Core(s) && t in s.threads && s.threads[t].Wait? && !s.threads[t].cancelled
    ensures Core(Put(s, t, Woken(s.threads[t].pane, false)))
    ensures Awake(s, each) ==> Awake(Put(s, t, Woken(s.threads[t].pane, false)), each)
  {
    KeepPut(s, t, Woken(s.threads[t].pane, false), s.threads[t].pane, each);
  }

  lemma EndCovers(s: Node, t: nat, each: bool)
    requires Awake(s, each) && s.mode.Running? && t in s.threads
    requires forall q :: !Reconciles(s.threads[t], q)
    requires forall e | Loose(s, e) && Cares(s.threads[t], s.store[e].pane) ::
               exists u :: u != t && CaredBy(s, u, s.store[e].pane)
    ensures Awake(End(s, t), each)
  {
    var s' := End(s, t);
    forall e | Loose(s', e)
      ensures RegisteredAt(s', s'.store[e].pane, e, each) && CoveredPane(s', s'.store[e].pane)
    {
      var q := s.store[e].pane;
      assert Loose(s, e);
      if !InList(s, q, e, each) {
        var v :| ReconciledBy(s, v, q);
        assert ReconciledBy(s', v, q);
      }
      assert CoveredPane(s, q);
      var u :| u != t && CaredBy(s, u, q);
      assert CaredBy(s', u, q);
    }
  }

  lemma CoreEnd(s: Node, t: nat)
    requires Core(s) && t in s.threads && !s.threads[t].Delivering?
    ensures Core(End(s, t))
  {
    EndQuiet(s, t);
    QuietFrame(s, End(s, t));
  }

  /** A wait that was cancelled may end. */
  lemma KeepWaitDies(s: Node, t: nat, each: bool)
    requires Core(s) && t in s.threads && IsWait(s.threads[t]) && s.threads[t].cancelled
    ensures Core(End(s, t))
    ensures Awake(s, each) ==> Awake(End(s, t), each)
  {
    CoreEnd(s, t);
    if Awake(s, each) { EndCovers(s, t, each); }
  }

  lemma RegisterCovers(s: Node, p: Pane, held: map<Pane, set<EventId>>, each: bool)
    requires Awake(s, each) && s.mode.Running?
    requires forall e | Loose(s, e) && s.store[e].pane == p :: RegisteredAt(s.(held := held), p, e, each)
    requires forall q | q != p :: HeldAt(s.(held := held), q) == HeldAt(s, q)
    ensures Awake(s.(held := held), each)
  {
    var s' := s.(held := held);
    forall e | Loose(s', e)
      ensures RegisteredAt(s', s'.store[e].pane, e, each) && CoveredPane(s', s'.store[e].pane)
    {
      var q := s.store[e].pane;
      assert Loose(s, e);
      assert RegisteredAt(s, q, e, each) && CoveredPane(s, q);
      var u :| CaredBy(s, u, q);
      assert CaredBy(s', u, q);
      if q != p && !InList(s, q, e, each) {
        var v :| ReconciledBy(s, v, q);
        assert ReconciledBy(s', v, q);
      }
    }
  }

  lemma CoreRegister(s: Node, held: map<Pane, set<EventId>>)
    requires Core(s) && s.mode.Running?
    ensures Core(s.(held := held))
  {
    QuietFrame(s, s.(held := held));
  }

  lemma KeepSpawn(s: Node, th: Thread, each: bool)
    requires Core(s) && s.mode.Running? && (th.Arming? || th.Resending?)
    ensures Core(Spawn(s, th))
    ensures Awake(s, each) ==> Awake(Spawn(s, th), each)
  {
    SpawnQuiet(s, th);
    QuietFrame(s, Spawn(s, th));
    if Awake(s, each) { SpawnCovers(s, th, each); }
  }

  lemma SpawnCovers(s: Node, th: Thread, each: bool)
    requires WaitsShape(s) && Awake(s, each) && s.mode.Running?
    ensures Awake(Spawn(s, th), each)
  {
    var s' := Spawn(s, th);
    forall e | Loose(s', e)
      ensures RegisteredAt(s', s'.store[e].pane, e, each) && CoveredPane(s', s'.store[e].pane)
    {
      assert Loose(s, e);
      SpawnCoversRow(s, th, s.store[e].pane, e, each);
    }
  }

  lemma SpawnCoversRow(s: Node, th: Thread, q: Pane, e: EventId, each: bool)
    requires WaitsShape(s) && RegisteredAt(s, q, e, each) && (CoveredPane(s, q) || Cares(th, q))
    ensures RegisteredAt(Spawn(s, th), q, e, each) && CoveredPane(Spawn(s, th), q)
  {
    var s' := Spawn(s, th);
    if !InList(s, q, e, each) {
      var v :| ReconciledBy(s, v, q);
      assert ReconciledBy(s', v, q);
    }
    if Cares(th, q) {
      assert CaredBy(s', s.next, q);
    } else {
      var u :| CaredBy(s, u, q);
      assert CaredBy(s', u, q);
    }
  }

  lemma KeepRearmCheck(s: Node, t: nat, each: bool)
    requires Core(s) && t in s.threads && s.threads[t].Rearming?
    ensures Core(DoRearmCheck(s, t))
    ensures Awake(s, each) ==> Awake(DoRearmCheck(s, t), each)
  {
    var p := s.threads[t].pane;
    if HeldAt(s, p) != {} {
      KeepPut(s, t, Arming({p}), p, each);
    } else {
      CoreEnd(s, t);
      if Awake(s, each) { RearmEnds(s, t, each); }
    }
  }

  lemma RearmEnds(s: Node, t: nat, each: bool)
    requires Awake(s, each) && s.mode.Running? && t in s.threads && s.threads[t].Rearming? && HeldAt(s, s.threads[t].pane) == {}
    ensures Awake(End(s, t), each)
  {
    var p := s.threads[t].pane;
    forall e | Loose(s, e) && Cares(s.threads[t], s.store[e].pane)
      ensures exists u :: u != t && CaredBy(s, u, s.store[e].pane)
    {
      assert RegisteredAt(s, p, e, each);
      var v :| ReconciledBy(s, v, p);
      assert CaredBy(s, v, p);
    }
    EndCovers(s, t, each);
  }

  lemma KeepReconcile(s: Node, t: nat, each: bool)
    requires Core(s) && t in s.threads && s.threads[t].Reconciling?
    ensures Core(DoReconcile(s, t))
    ensures Awake(s, each) ==> Awake(DoReconcile(s, t), each)
  {
    var p, m := s.threads[t].pane, s.(held := Relisted(s, s.threads[t].pane));
    CoreRegister(s, Relisted(s, p));
    PutQuiet(m, t, NextOf(s.threads[t]));
    QuietFrame(m, DoReconcile(s, t));
    if Awake(s, each) {
      ListedCovers(s, p, each);
      ReconcileCovers(m, t, NextOf(s.threads[t]), p, each);
    }
  }

  /** A list made from the store names every row of the pane. */
  lemma ListedCovers(s: Node, p: Pane, each: bool)
    requires Awake(s, each) && s.mode.Running?
    ensures Awake(s.(held := Relisted(s, p)), each) && HeldAt(s.(held := Relisted(s, p)), p) == RowsAt(s.store, p)
  {
    var s' := s.(held := Relisted(s, p));
    assert HeldAt(s', p) == RowsAt(s.store, p);
    forall e | Loose(s, e) && s.store[e].pane == p ensures RegisteredAt(s', p, e, each) {
      assert e in RowsAt(s.store, p);
    }
    RegisterCovers(s, p, Relisted(s, p), each);
  }

  lemma ReconcileCovers(s: Node, t: nat, th: Thread, p: Pane, each: bool)
    requires Awake(s, each) && s.mode.Running? && t in s.threads
    requires s.threads[t].Reconciling? && s.threads[t].pane == p && Cares(th, p)
    requires HeldAt(s, p) == RowsAt(s.store, p)
    ensures Awake(Put(s, t, th), each)
  {
    var s' := Put(s, t, th);
    forall e | Loose(s', e)
      ensures RegisteredAt(s', s'.store[e].pane, e, each) && CoveredPane(s', s'.store[e].pane)
    {
      var q := s.store[e].pane;
      assert Loose(s, e);
      if q == p {
        assert e in HeldAt(s', p);
        assert CaredBy(s', t, p);
      } else {
        assert RegisteredAt(s, q, e, each) && CoveredPane(s, q);
        var u :| CaredBy(s, u, q);
        assert CaredBy(s', u, q);
        if !InList(s, q, e, each) {
          var v :| ReconciledBy(s, v, q);
          assert ReconciledBy(s', v, q);
        }
      }
    }
  }

  // ---------------------------------------------------------------- taking rows for a release

  ghost predicate TakeStep(s: Node, t: nat, items: map<EventId, Row>, held: map<Pane, set<EventId>>) {
    s.mode.Running? && t in s.threads && s.threads[t].Woken? &&
    (forall e | e in items :: Loose(s, e) && s.store[e].pane == s.threads[t].pane && items[e] == s.store[e]) &&
    (forall q | q != s.threads[t].pane :: HeldAt(s.(held := held), q) == HeldAt(s, q))
  }

  lemma TakeShape(s: Node, t: nat, items: map<EventId, Row>, held: map<Pane, set<EventId>>, always: bool)
    requires Shape(s) && TakeStep(s, t, items, held)
    ensures Shape(Take(s, t, items, held, always))
  {
  }

  lemma TakeOwnership(s: Node, t: nat, items: map<EventId, Row>, held: map<Pane, set<EventId>>, always: bool)
    requires Ownership(s) && TakeStep(s, t, items, held)
    ensures Ownership(Take(s, t, items, held, always))
  {
    var s' := Take(s, t, items, held, always);
    assert forall u, e :: Owner(s', u, e) <==> Owner(s, u, e) || (u == t && e in items);
    forall e | e in s'.inflight ensures exists u :: Owner(s', u, e) {
      if e in items {
        assert Owner(s', t, e);
      } else {
        var u :| Owner(s, u, e);
        assert Owner(s', u, e);
      }
    }
  }

  lemma TakeCovers(s: Node, t: nat, items: map<EventId, Row>, held: map<Pane, set<EventId>>, always: bool, each: bool)
    requires Awake(s, each) && TakeStep(s, t, items, held)
    ensures Awake(Take(s, t, items, held, always), each)
  {
    var s' := Take(s, t, items, held, always);
    var p := s.threads[t].pane;
    assert CaredBy(s', t, p) && ReconciledBy(s', t, p);
    forall e | Loose(s', e)
      ensures RegisteredAt(s', s'.store[e].pane, e, each) && CoveredPane(s', s'.store[e].pane)
    {
      var q := s.store[e].pane;
      assert Loose(s, e);
      if q != p {
        assert RegisteredAt(s, q, e, each) && CoveredPane(s, q);
        var u :| CaredBy(s, u, q);
        assert CaredBy(s', u, q);
        assert HeldAt(s', q) == HeldAt(s.(held := held), q);
        if !InList(s, q, e, each) {
          var v :| ReconciledBy(s, v, q);
          assert ReconciledBy(s', v, q);
        }
      }
    }
  }

  /** Under apply, only an edited row whose delivery is recorded is ever taken for a release. */
  lemma NeverTakenAgain(s: Node, e: EventId)
    requires Shape(s) && Ownership(s) && Receipts(s) && s.applyDedupe && s.mode.Running? && Loose(s, e) && e !in s.edited
    ensures e !in s.delivered
  {
    if u :| RecordedBy(s, u, e) {
      RecorderOwns(s, u, e);
    }
  }

  lemma RecorderOwns(s: Node, u: nat, e: EventId)
    requires RecordedBy(s, u, e) && ThreadShape(s.seen, s.threads[u])
    ensures Owner(s, u, e)
  {
  }

  /** What a row to be taken brings along. */
  ghost predicate Takeable(s: Node, e: EventId) {
    Loose(s, e) && s.store[e].eid == e && e !in s.cancelled && ReceiptOf(s, s.store[e]) && Rest(s, s.store[e]) &&
    WithinLife(s, e) && (s.applyDedupe && e in s.delivered ==> e in s.edited)
  }

  lemma LooseTakeable(s: Node, e: EventId)
    requires Core(s) && s.mode.Running? && Loose(s, e)
    ensures Takeable(s, e)
  {
    assert RowShape(s.seen, e, s.store[e]) && WithinLife(s, e);
    if s.applyDedupe && e !in s.edited { NeverTakenAgain(s, e); }
  }

  lemma TakenRow(s: Node, t: nat, items: map<EventId, Row>, held: map<Pane, set<EventId>>, always: bool, e: EventId)
    requires t in s.threads && s.threads[t].Woken? && e in items && Takeable(s, e) && items[e] == s.store[e]
    ensures var s' := Take(s, t, items, held, always); RowOK(s', s'.threads[t], e)
  {
    var s' := Take(s, t, items, held, always);
    assert PlaceOf(s'.threads[t], e) == Resting;
  }

  lemma TakeOtherRow(s: Node, t: nat, items: map<EventId, Row>, held: map<Pane, set<EventId>>, always: bool, row: Row, place: Place)
    requires t in s.threads && s.threads[t].Woken? && row.eid !in items && PlaceOK(s, row, place)
    ensures PlaceOK(Take(s, t, items, held, always), row, place)
  {
    SameRowOK(s, Take(s, t, items, held, always), row, place);
  }

  lemma TakeAnyRow(s: Node, t: nat, items: map<EventId, Row>, held: map<Pane, set<EventId>>, always: bool, e: EventId)
    requires t in s.threads && s.threads[t].Woken? && AnyRow(s, e) && (e in s.store ==> s.store[e].eid == e)
    requires forall x | x in items :: x in s.store
    ensures AnyRow(Take(s, t, items, held, always), e)
  {
    var s' := Take(s, t, items, held, always);
    assert WithinLife(s', e);
    if s'.applyDedupe && e in s'.store && e in s'.delivered && e !in s'.edited {
      var u :| RecordedBy(s, u, e);
      assert RecordedBy(s', u, e);
    }
  }

  lemma TakeOwned(s: Node, t: nat, items: map<EventId, Row>, held: map<Pane, set<EventId>>, always: bool, u: nat, e: EventId)
    requires Core(s) && TakeStep(s, t, items, held) && Owner(Take(s, t, items, held, always), u, e)
    ensures var s' := Take(s, t, items, held, always); RowOK(s', s'.threads[u], e)
  {
    if u == t {
      LooseTakeable(s, e);
      TakenRow(s, t, items, held, always, e);
    } else {
      assert Owner(s, u, e);
      assert e !in items;
      OwnRow(s, u, e);
      TakeOtherRow(s, t, items, held, always, s.threads[u].items[e], PlaceOf(s.threads[u], e));
    }
  }

  lemma TakeRows(s: Node, t: nat, items: map<EventId, Row>, held: map<Pane, set<EventId>>, always: bool)
    requires Core(s) && TakeStep(s, t, items, held)
    ensures var s' := Take(s, t, items, held, always); Facts(s') && TypedBound(s') && Receipts(s') && Recovery(s')
  {
    var s' := Take(s, t, items, held, always);
    forall u, e | Owner(s', u, e) ensures RowOK(s', s'.threads[u], e) { TakeOwned(s, t, items, held, always, u, e); }
    forall e ensures AnyRow(s', e) {
      EveryRow(s, e);
      assert e in s.store ==> RowShape(s.seen, e, s.store[e]);
      TakeAnyRow(s, t, items, held, always, e);
    }
    FromRows(s');
  }

  lemma KeepTake(s: Node, t: nat, items: map<EventId, Row>, held: map<Pane, set<EventId>>, always: bool, each: bool)
    requires Core(s) && TakeStep(s, t, items, held)
    ensures Core(Take(s, t, items, held, always))
    ensures Awake(s, each) ==> Awake(Take(s, t, items, held, always), each)
  {
    TakeShape(s, t, items, held, always);
    TakeOwnership(s, t, items, held, always);
    TakeRows(s, t, items, held, always);
    if Awake(s, each) { TakeCovers(s, t, items, held, always, each); }
  }

  lemma SnapshotRows(s: Node, p: Pane)
    ensures forall e :: Loose(s, e) && s.store[e].pane == p <==> e in Snapshot(s, p).Keys
  {
  }

  lemma EndWoken(s: Node, t: nat, each: bool)
    requires Core(s) && t in s.threads && s.threads[t].Woken? && Snapshot(s, s.threads[t].pane).Keys == {}
    ensures Core(End(s, t))
    ensures Awake(s, each) ==> Awake(End(s, t), each)
  {
    CoreEnd(s, t);
    SnapshotRows(s, s.threads[t].pane);
    if Awake(s, each) { EndCovers(s, t, each); }
  }

  lemma KeepTakeAll(s: Node, t: nat, each: bool)
    requires Core(s) && t in s.threads && s.threads[t].Woken?
    ensures Core(DoTakeAll(s, t))
    ensures Awake(s, each) ==> Awake(DoTakeAll(s, t), each)
  {
    var p := s.threads[t].pane;
    if Snapshot(s, p).Keys == {} { EndWoken(s, t, each); } else { KeepTake(s, t, Snapshot(s, p), s.held - {p}, false, each); }
  }

  lemma WorkingStep(s: Node, t: nat, expired: bool)
    requires s.mode.Running? && t in s.threads && s.threads[t].Woken?
    ensures var p := s.threads[t].pane; TakeStep(s, t, WorkingItems(s, p, expired), WorkingHeld(s, p, expired))
  {
    SnapshotRows(s, s.threads[t].pane);
  }

  lemma KeepTakeWorking(s: Node, t: nat, expired: bool, each: bool)
    requires Core(s) && t in s.threads && s.threads[t].Woken?
    ensures Core(DoTakeWorking(s, t, expired))
    ensures Awake(s, each) ==> Awake(DoTakeWorking(s, t, expired), each)
  {
    var p := s.threads[t].pane;
    if Snapshot(s, p).Keys == {} {
      EndWoken(s, t, each);
    } else if WorkingItems(s, p, expired).Keys == {} {
      KeepPut(s, t, Arming({p}), p, each);
    } else {
      WorkingStep(s, t, expired);
      KeepTake(s, t, WorkingItems(s, p, expired), WorkingHeld(s, p, expired), true, each);
    }
  }

  lemma TakeOwns(s: Node, t: nat, items: map<EventId, Row>, held: map<Pane, set<EventId>>, always: bool)
    requires t in s.threads && s.threads[t].Woken?
    ensures forall e :: Owner(Take(s, t, items, held, always), t, e) <==> e in items
  {
  }

  /** A release owns exactly the loose rows of its pane. */
  lemma TakeAllExactly(s: Node, t: nat, e: EventId)
    requires t in s.threads && s.threads[t].Woken? && IsDelivering(DoTakeAll(s, t), t)
    ensures Owner(DoTakeAll(s, t), t, e) <==> Loose(s, e) && s.store[e].pane == s.threads[t].pane
  {
    var p := s.threads[t].pane;
    assert !IsDelivering(End(s, t), t);
    assert DoTakeAll(s, t) == Take(s, t, Snapshot(s, p), s.held - {p}, false);
    TakeOwns(s, t, Snapshot(s, p), s.held - {p}, false);
  }

  lemma WorkingTakes(s: Node, t: nat, expired: bool)
    requires t in s.threads && s.threads[t].Woken? && IsDelivering(DoTakeWorking(s, t, expired), t)
    ensures var p := s.threads[t].pane;
      DoTakeWorking(s, t, expired) == Take(s, t, WorkingItems(s, p, expired), WorkingHeld(s, p, expired), true)
  {
    assert !IsDelivering(End(s, t), t) && !IsDelivering(Put(s, t, Arming({s.threads[t].pane})), t);
  }

  lemma WorkingRows(s: Node, p: Pane, expired: bool, e: EventId)
    ensures e in WorkingItems(s, p, expired) <==> Loose(s, e) && s.store[e].pane == p && (expired || s.store[e].directive)
  {
  }

  /** A working wake before its deadline owns exactly the loose directives of its pane, after it every loose row. */
  lemma TakeWorkingExactly(s: Node, t: nat, expired: bool, e: EventId)
    requires t in s.threads && s.threads[t].Woken? && IsDelivering(DoTakeWorking(s, t, expired), t)
    ensures Owner(DoTakeWorking(s, t, expired), t, e) <==>
      Loose(s, e) && s.store[e].pane == s.threads[t].pane && (expired || s.store[e].directive)
  {
    var p := s.threads[t].pane;
    WorkingTakes(s, t, expired);
    TakeOwns(s, t, WorkingItems(s, p, expired), WorkingHeld(s, p, expired), true);
    WorkingRows(s, p, expired, e);
  }

  // ---------------------------------------------------------------- the end of a delivery

  ghost predicate AllEnded(s: Node, t: nat) {
    IsDelivering(s, t) && s.mode.Running? && s.threads[t].todo == {} && !s.threads[t].phase.Recorded?
  }

  lemma FinishShape(s: Node, t: nat)
    requires Shape(s) && AllEnded(s, t)
    ensures Shape(DoFinish(s, t))
  {
  }

  lemma FinishOwnership(s: Node, t: nat)
    requires Ownership(s) && AllEnded(s, t)
    ensures Ownership(DoFinish(s, t))
  {
    var s' := DoFinish(s, t);
    assert forall u, e :: Owner(s', u, e) <==> Owner(s, u, e) && u != t;
    forall e | e in s'.inflight ensures exists u :: Owner(s', u, e) {
      var u :| Owner(s, u, e);
      assert Owner(s', u, e);
    }
    forall u, e | Owner(s', u, e) ensures e in s'.inflight {
      assert Owner(s, u, e);
      assert e in s.threads[t].items ==> Owner(s, t, e);
    }
  }

  /** A row of an ended release that is still stored keeps its pane and its allowance. */
  lemma FinishedPane(s: Node, t: nat, e: EventId)
    requires Shape(s) && Facts(s) && TypedBound(s) && AllEnded(s, t) && Owner(s, t, e) && e in s.store
    ensures s.store[e].pane == s.threads[t].pane && Rest(s, s.store[e])
  {
    assert ThreadShape(s.seen, s.threads[t]);
    assert PlaceOf(s.threads[t], e) == Ended(s.threads[t].fates[e]);
    assert PlaceFacts(s, s.threads[t].items[e], PlaceOf(s.threads[t], e));
    assert PlaceTyped(s, s.threads[t].items[e], PlaceOf(s.threads[t], e));
  }

  lemma FinishCovers(s: Node, t: nat, each: bool)
    requires Shape(s) && Facts(s) && TypedBound(s) && Awake(s, each) && AllEnded(s, t)
    ensures Awake(DoFinish(s, t), each)
  {
    var s' := DoFinish(s, t);
    var p := s.threads[t].pane;
    assert CaredBy(s', t, p) && ReconciledBy(s', t, p);
    forall e | Loose(s', e)
      ensures RegisteredAt(s', s'.store[e].pane, e, each) && CoveredPane(s', s'.store[e].pane)
    {
      var q := s.store[e].pane;
      if q != p {
        if Owner(s, t, e) { FinishedPane(s, t, e); }
        assert Loose(s, e);
        assert RegisteredAt(s, q, e, each) && CoveredPane(s, q);
        var u :| CaredBy(s, u, q);
        assert CaredBy(s', u, q);
        if !InList(s, q, e, each) {
          var v :| ReconciledBy(s, v, q);
          assert ReconciledBy(s', v, q);
        }
      }
    }
  }

  lemma FinishPlace(s: Node, t: nat, row: Row, place: Place)
    requires IsDelivering(s, t) && PlaceOK(s, row, place)
    ensures PlaceOK(DoFinish(s, t), row, place)
  {
  }

  lemma FinishAny(s: Node, t: nat, e: EventId)
    requires IsDelivering(s, t) && !s.threads[t].phase.Recorded? && AnyRow(s, e)
    requires e in s.store ==> Rest(s, s.store[e]) || !Owner(s, t, e)
    ensures AnyRow(DoFinish(s, t), e)
  {
    var s' := DoFinish(s, t);
    assert WithinLife(s', e);
    assert Loose(s', e) && !Owner(s, t, e) ==> Loose(s, e);
    if s'.applyDedupe && e in s'.store && e in s'.delivered && e !in s'.edited {
      var u :| RecordedBy(s, u, e);
      assert RecordedBy(s', u, e);
    }
  }

  lemma FinishAnyRow(s: Node, t: nat, e: EventId)
    requires Core(s) && AllEnded(s, t)
    ensures AnyRow(DoFinish(s, t), e)
  {
    EveryRow(s, e);
    if Owner(s, t, e) && e in s.store { FinishedPane(s, t, e); }
    FinishAny(s, t, e);
  }

  lemma FinishRows(s: Node, t: nat)
    requires Core(s) && AllEnded(s, t)
    ensures var s' := DoFinish(s, t); Facts(s') && TypedBound(s') && Receipts(s') && Recovery(s')
  {
    var s' := DoFinish(s, t);
    forall u, e | Owner(s', u, e) ensures RowOK(s', s'.threads[u], e) {
      assert Owner(s, u, e);
      OwnRow(s, u, e);
      FinishPlace(s, t, s.threads[u].items[e], PlaceOf(s.threads[u], e));
    }
    forall e ensures AnyRow(s', e) { FinishAnyRow(s, t, e); }
    FromRows(s');
  }

  lemma KeepFinish(s: Node, t: nat, each: bool)
    requires Core(s) && AllEnded(s, t)
    ensures Core(DoFinish(s, t))
    ensures Awake(s, each) ==> Awake(DoFinish(s, t), each)
  {
    FinishShape(s, t);
    FinishOwnership(s, t);
    FinishRows(s, t);
    if Awake(s, each) { FinishCovers(s, t, each); }
  }

  lemma RearmPhase(s: Node, t: nat)
    requires Shape(s) && ReleaseOK(s, t) && s.threads[t].phase.Rearm?
    ensures var ph := s.threads[t].phase;
      var m := Put(s, t, s.threads[t].(phase := Settling(ph.group, ph.verdict)));
      DeliveryStep(s, m, t) && StoreStep(s, m) && ThreadShape(m.seen, m.threads[t]) && ReleaseOK(m, t)
  {
    var th := s.threads[t];
    var m := Put(s, t, th.(phase := Settling(th.phase.group, th.phase.verdict)));
    assert ThreadShape(s.seen, th);
    forall e | e in th.items ensures RowOK(m, m.threads[t], e) {
      assert RowOK(s, th, e);
      assert PlaceOf(m.threads[t], e) == PlaceOf(th, e);
      SameRowOK(s, m, th.items[e], PlaceOf(th, e));
    }
  }

  lemma KeepRearmRetry(s: Node, t: nat, each: bool)
    requires Core(s) && IsDelivering(s, t) && s.threads[t].phase.Rearm?
    ensures Core(DoRearmRetry(s, t))
    ensures Awake(s, each) ==> Awake(DoRearmRetry(s, t), each)
  {
    var th := s.threads[t];
    var m := Put(s, t, th.(phase := Settling(th.phase.group, th.phase.verdict)));
    OwnRows(s, t);
    RearmPhase(s, t);
    DeliveryFrame(s, m, t, each);
    ArmShape(m, th.pane);
    ArmQuiet(m, th.pane);
    QuietFrame(m, ArmPane(m, th.pane));
    if Awake(s, each) { ArmCovers(m, th.pane, each); }
  }

  // ---------------------------------------------------------------- steps about one event

  /** s' differs from s only in event e, in the waits and in threads that deliver nothing. */
  ghost predicate EventStep(s: Node, s': Node, e: EventId) {
    s.mode.Running? && s'.mode == s.mode && s'.inflight == s.inflight && s'.acks == s.acks &&
    s'.applyDedupe == s.applyDedupe && s'.cut == s.cut && s'.taken == s.taken && e !in s.acks &&
    (forall x | x in s.seen :: x in s'.seen && s'.seen[x] == s.seen[x]) && e in s'.seen &&
    (forall x | x != e :: SameRow(s, s', x)) &&
    (forall t | IsDelivering(s, t) || IsDelivering(s', t) ::
       t in s.threads && t in s'.threads && s.threads[t] == s'.threads[t])
  }

  /** What the invariants ask of event e after a step that concerns only it. */
  ghost predicate EventOK(s: Node, e: EventId) {
    AnyRow(s, e) && forall t | Owner(s, t, e) :: RowOK(s, s.threads[t], e)
  }

  lemma EventOwnership(s: Node, s': Node, e: EventId)
    requires Ownership(s) && EventStep(s, s', e)
    ensures Ownership(s')
  {
    assert forall t, x :: Owner(s', t, x) <==> Owner(s, t, x);
    forall x | x in s'.inflight ensures exists u :: Owner(s', u, x) {
      var u :| Owner(s, u, x);
      assert Owner(s', u, x);
    }
  }

  lemma EventOwned(s: Node, s': Node, e: EventId, t: nat, x: EventId)
    requires Core(s) && EventStep(s, s', e) && Owner(s', t, x) && (x == e ==> RowOK(s', s'.threads[t], x))
    ensures RowOK(s', s'.threads[t], x)
  {
    if x != e {
      assert Owner(s, t, x) && SameRow(s, s', x);
      OwnRow(s, t, x);
      SameRowOK(s, s', s.threads[t].items[x], PlaceOf(s.threads[t], x));
    }
  }

  lemma EventAny(s: Node, s': Node, e: EventId, x: EventId)
    requires AnyRow(s, x) && EventStep(s, s', e) && x != e && (x in s.store ==> s.store[x].eid == x)
    ensures AnyRow(s', x)
  {
    assert SameRow(s, s', x);
    if s'.applyDedupe && x in s'.store && x in s'.delivered && x !in s'.edited {
      var t :| RecordedBy(s, t, x);
      assert RecordedBy(s', t, x);
    }
  }

  lemma EventRows(s: Node, s': Node, e: EventId)
    requires Core(s) && EventStep(s, s', e) && EventOK(s', e)
    ensures Facts(s') && TypedBound(s') && Receipts(s')
  {
    forall t, x | Owner(s', t, x) ensures RowOK(s', s'.threads[t], x) { EventOwned(s, s', e, t, x); }
    forall x ensures AnyRow(s', x) {
      if x != e {
        EveryRow(s, x);
        assert x in s.store ==> RowShape(s.seen, x, s.store[x]);
        EventAny(s, s', e, x);
      }
    }
    FromRows(s');
  }

  lemma EventRecovery(s: Node, s': Node, e: EventId)
    requires Recovery(s) && EventStep(s, s', e)
    ensures Recovery(s')
  {
    forall x | x in s'.acks
      ensures s'.acks[x] == 1 && x in s'.seen && x !in s'.store && x !in s'.inflight
    {
      assert SameRow(s, s', x);
    }
  }

  lemma EventFrame(s: Node, s': Node, e: EventId)
    requires Core(s) && EventStep(s, s', e) && EventOK(s', e) && Shape(s')
    ensures Core(s')
  {
    EventOwnership(s, s', e);
    EventRows(s, s', e);
    EventRecovery(s, s', e);
  }

  // ---------------------------------------------------------------- offers

  /** No release, receipt or count knows an event that was never offered. */
  lemma FreshRow(s: Node, row: Row)
    requires Core(s) && Fresh(s, row)
    ensures row.eid !in s.store && row.eid !in s.inflight && row.eid !in s.delivered && row.eid !in s.acks
    ensures forall t :: !Owner(s, t, row.eid)
  {
    forall t ensures !Owner(s, t, row.eid) {
      if IsDelivering(s, t) { assert ThreadShape(s.seen, s.threads[t]); }
    }
  }

  predicate HoldStep(s: Node, row: Row, typed: nat) {
    Fresh(s, row) && row.attempts < MAX_ATTEMPTS && typed <= row.attempts && (row.directive ==> typed == 0)
  }

  lemma HoldShape(s: Node, row: Row, typed: nat)
    requires Shape(s) && HoldStep(s, row, typed) && row.eid !in s.store
    ensures Shape(DoOfferHold(s, row, typed))
  {
  }

  lemma HoldCovers(s: Node, row: Row, typed: nat, each: bool)
    requires WaitsShape(s) && Awake(s, each) && HoldStep(s, row, typed) && row.eid !in s.store
    ensures Awake(DoOfferHold(s, row, typed), each)
  {
    var s' := DoOfferHold(s, row, typed);
    forall e | Loose(s', e)
      ensures RegisteredAt(s', s'.store[e].pane, e, each) && CoveredPane(s', s'.store[e].pane)
    {
      var q := s'.store[e].pane;
      if q == row.pane {
        assert e in HeldAt(s', q);
        assert CaredBy(s', s.next, q);
      } else {
        assert Loose(s, e);
        assert RegisteredAt(s, q, e, each) && CoveredPane(s, q);
        var u :| CaredBy(s, u, q);
        assert CaredBy(s', u, q);
        if !InList(s, q, e, each) {
          var v :| ReconciledBy(s, v, q);
          assert ReconciledBy(s', v, q);
        }
      }
    }
  }

  lemma HoldFrame(s: Node, row: Row, typed: nat)
    requires HoldStep(s, row, typed) && row.eid !in s.acks && WaitsShape(s)
    ensures EventStep(s, DoOfferHold(s, row, typed), row.eid)
  {
  }

  lemma HoldEvent(s: Node, row: Row, typed: nat)
    requires HoldStep(s, row, typed) && row.eid !in s.acks && WaitsShape(s)
    requires row.eid !in s.store && row.eid !in s.delivered && forall t :: !Owner(s, t, row.eid)
    ensures EventOK(DoOfferHold(s, row, typed), row.eid)
  {
    var s' := DoOfferHold(s, row, typed);
    assert forall t :: Owner(s', t, row.eid) ==> Owner(s, t, row.eid);
  }

  lemma KeepOfferHold(s: Node, row: Row, typed: nat, each: bool)
    requires Core(s) && HoldStep(s, row, typed)
    ensures Core(DoOfferHold(s, row, typed))
    ensures Awake(s, each) ==> Awake(DoOfferHold(s, row, typed), each)
  {
    FreshRow(s, row);
    HoldShape(s, row, typed);
    HoldFrame(s, row, typed);
    HoldEvent(s, row, typed);
    EventFrame(s, DoOfferHold(s, row, typed), row.eid);
    if Awake(s, each) { HoldCovers(s, row, typed, each); }
  }

  /** A step that leaves rows, lists and threads alone, but for texts, leaves every pane as it was. */
  lemma SamePanes(s: Node, s': Node, each: bool)
    requires Awake(s, each) && s.mode.Running? && s'.mode == s.mode && s'.threads == s.threads && s'.held == s.held
    requires s'.inflight == s.inflight && s'.store.Keys == s.store.Keys
    requires forall e | e in s.store :: s'.store[e].pane == s.store[e].pane
    ensures Awake(s', each)
  {
    forall e | Loose(s', e)
      ensures RegisteredAt(s', s'.store[e].pane, e, each) && CoveredPane(s', s'.store[e].pane)
    {
      var q := s.store[e].pane;
      assert Loose(s, e) && RegisteredAt(s, q, e, each) && CoveredPane(s, q);
      var u :| CaredBy(s, u, q);
      assert CaredBy(s', u, q);
      if !InList(s, q, e, each) {
        var v :| ReconciledBy(s, v, q);
        assert ReconciledBy(s', v, q);
      }
    }
  }

  lemma TypedEvent(s: Node, row: Row, shots: nat, landed: bool)
    requires Fresh(s, row) && shots <= (if row.directive then 2 else 1) && row.eid !in s.acks
    requires row.eid !in s.store && forall t :: !Owner(s, t, row.eid)
    ensures var s' := DoOfferTyped(s, row, shots, landed); EventStep(s, s', row.eid) && EventOK(s', row.eid)
  {
    var s' := DoOfferTyped(s, row, shots, landed);
    assert forall t :: Owner(s', t, row.eid) ==> Owner(s, t, row.eid);
  }

  lemma TypedShape(s: Node, row: Row, shots: nat, landed: bool)
    requires Shape(s) && Fresh(s, row)
    ensures Shape(DoOfferTyped(s, row, shots, landed))
  {
  }

  lemma KeepOfferTyped(s: Node, row: Row, shots: nat, landed: bool, each: bool)
    requires Core(s) && Fresh(s, row) && shots <= (if row.directive then 2 else 1)
    ensures Core(DoOfferTyped(s, row, shots, landed))
    ensures Awake(s, each) ==> Awake(DoOfferTyped(s, row, shots, landed), each)
  {
    FreshRow(s, row);
    TypedShape(s, row, shots, landed);
    TypedEvent(s, row, shots, landed);
    EventFrame(s, DoOfferTyped(s, row, shots, landed), row.eid);
    if Awake(s, each) { SamePanes(s, DoOfferTyped(s, row, shots, landed), each); }
  }

  // ---------------------------------------------------------------- an operator edits or cancels a row

  lemma EditShape(s: Node, e: EventId, text: string)
    requires Shape(s) && e in s.store
    ensures Shape(DoEdit(s, e, text))
  {
    assert RowShape(s.seen, e, s.store[e]);
  }

  lemma EditedPlace(s: Node, e: EventId, text: string, row: Row, place: Place)
    requires e in s.store && e in s.inflight && row.eid == e && PlaceOK(s, row, place)
    ensures PlaceOK(DoEdit(s, e, text), row, place)
  {
  }

  lemma EditAny(s: Node, e: EventId, text: string)
    requires e in s.store && s.store[e].eid == e && AnyRow(s, e)
    ensures AnyRow(DoEdit(s, e, text), e)
  {
    var s' := DoEdit(s, e, text);
    if s'.applyDedupe && e in s'.delivered && e !in s'.edited {
      var t :| RecordedBy(s, t, e);
      assert RecordedBy(s', t, e);
    }
  }

  lemma EditStep(s: Node, e: EventId, text: string)
    requires s.mode.Running? && e in s.store && e in s.seen && e !in s.acks
    ensures EventStep(s, DoEdit(s, e, text), e)
  {
  }

  lemma EditEvent(s: Node, e: EventId, text: string)
    requires Core(s) && s.mode.Running? && e in s.store
    ensures EventOK(DoEdit(s, e, text), e)
  {
    var s' := DoEdit(s, e, text);
    assert RowShape(s.seen, e, s.store[e]);
    EveryRow(s, e);
    EditAny(s, e, text);
    forall t | Owner(s', t, e) ensures RowOK(s', s'.threads[t], e) {
      assert Owner(s, t, e);
      OwnRow(s, t, e);
      EditedPlace(s, e, text, s.threads[t].items[e], PlaceOf(s.threads[t], e));
    }
  }

  lemma EditCovers(s: Node, e: EventId, text: string, each: bool)
    requires Awake(s, each) && s.mode.Running? && e in s.store
    ensures Awake(DoEdit(s, e, text), each)
  {
    SamePanes(s, DoEdit(s, e, text), each);
  }

  lemma KeepEdit(s: Node, e: EventId, text: string, each: bool)
    requires Core(s) && s.mode.Running? && e in s.store
    ensures Core(DoEdit(s, e, text))
    ensures Awake(s, each) ==> Awake(DoEdit(s, e, text), each)
  {
    assert RowShape(s.seen, e, s.store[e]);
    EditShape(s, e, text);
    EditStep(s, e, text);
    EditEvent(s, e, text);
    EventFrame(s, DoEdit(s, e, text), e);
    if Awake(s, each) { EditCovers(s, e, text, each); }
  }

  lemma CancelShape(s: Node, e: EventId)
    requires Shape(s) && s.mode.Running? && e in s.store
    ensures Shape(DoCancel(s, e))
  {
  }

  /** The cancel empties the list of a pane that has another loose row, and no release will make the list again. */
  ghost predicate Empties(s: Node, e: EventId) {
    exists x :: x != e && Loose(s, x) && HeldAt(s, s.store[x].pane) == {e} && !exists t :: ReconciledBy(s, t, s.store[x].pane)
  }

  lemma CancelRow(s: Node, e: EventId, x: EventId, q: Pane, each: bool)
    requires WaitsShape(s) && e in s.store && x != e && RegisteredAt(s, q, x, each) && CoveredPane(s, q)
    requires !each && HeldAt(s, q) == {e} ==> exists t :: ReconciledBy(s, t, q)
    ensures RegisteredAt(DoCancel(s, e), q, x, each) && CoveredPane(DoCancel(s, e), q)
  {
    var s' := DoCancel(s, e);
    var u :| CaredBy(s, u, q);
    assert CaredBy(s', u, q);
    assert HeldAt(s', q) == HeldAt(s, q) - {e};
    if v :| ReconciledBy(s, v, q) {
      assert ReconciledBy(s', v, q);
    } else if !each {
      assert HeldAt(s, q) - {e} == {} ==> HeldAt(s, q) == {} || HeldAt(s, q) == {e};
    }
  }

  lemma CancelCovers(s: Node, e: EventId, each: bool)
    requires WaitsShape(s) && Awake(s, each) && s.mode.Running? && e in s.store && (!each ==> !Empties(s, e))
    ensures Awake(DoCancel(s, e), each)
  {
    var s' := DoCancel(s, e);
    forall x | Loose(s', x)
      ensures RegisteredAt(s', s'.store[x].pane, x, each) && CoveredPane(s', s'.store[x].pane)
    {
      assert Loose(s, x);
      CancelRow(s, e, x, s.store[x].pane, each);
    }
  }

  lemma CancelEmpties(s: Node, e: EventId)
    requires WaitsShape(s) && s.mode.Running? && e in s.store && Empties(s, e)
    ensures !Awake(DoCancel(s, e), false)
  {
    var x :| x != e && Loose(s, x) && HeldAt(s, s.store[x].pane) == {e} && !exists t :: ReconciledBy(s, t, s.store[x].pane);
    var s', q := DoCancel(s, e), s.store[x].pane;
    assert Loose(s', x) && HeldAt(s', q) == {};
    assert forall t :: ReconciledBy(s', t, q) ==> ReconciledBy(s, t, q);
    assert !RegisteredAt(s', q, x, false);
  }

  lemma CancelledPlace(s: Node, e: EventId, row: Row, place: Place)
    requires e in s.store && row.eid == e && PlaceOK(s, row, place)
    ensures PlaceOK(DoCancel(s, e), row, place)
  {
  }

  lemma CancelStep(s: Node, e: EventId)
    requires Shape(s) && s.mode.Running? && e in s.store && e !in s.acks
    ensures EventStep(s, DoCancel(s, e), e)
  {
    assert RowShape(s.seen, e, s.store[e]);
  }

  lemma CancelEvent(s: Node, e: EventId)
    requires Core(s) && s.mode.Running? && e in s.store
    ensures EventOK(DoCancel(s, e), e)
  {
    var s' := DoCancel(s, e);
    EveryRow(s, e);
    assert WithinLife(s', e);
    forall t | Owner(s', t, e) ensures RowOK(s', s'.threads[t], e) {
      assert Owner(s, t, e);
      OwnRow(s, t, e);
      CancelledPlace(s, e, s.threads[t].items[e], PlaceOf(s.threads[t], e));
    }
  }

  lemma KeepCancel(s: Node, e: EventId, each: bool)
    requires Core(s) && s.mode.Running? && e in s.store
    ensures Core(DoCancel(s, e))
    ensures Awake(s, each) && (!each ==> !Empties(s, e)) ==> Awake(DoCancel(s, e), each)
  {
    CancelShape(s, e);
    CancelStep(s, e);
    CancelEvent(s, e);
    EventFrame(s, DoCancel(s, e), e);
    if Awake(s, each) && (!each ==> !Empties(s, e)) { CancelCovers(s, e, each); }
  }

  // ---------------------------------------------------------------- a resend of a held event

  lemma KeepReplayRead(s: Node, t: nat, each: bool)
    requires Core(s) && t in s.threads && s.threads[t].Resending?
    ensures Core(DoReplayRead(s, t))
    ensures Awake(s, each) ==> Awake(DoReplayRead(s, t), each)
  {
    var p := s.threads[t].pane;
    KeepPut(s, t, Replaying(p, RowsAt(s.store, p)), p, each);
  }

  /** The reading leaves out a loose row (with `each` off, names no row at all), and no release will make the list again. */
  ghost predicate Overtaken(s: Node, t: nat, each: bool) {
    t in s.threads && s.threads[t].Replaying? && var p := s.threads[t].pane;
    (exists e :: Loose(s, e) && s.store[e].pane == p && (if each then e !in s.threads[t].ids else s.threads[t].ids == {})) &&
    !exists u :: ReconciledBy(s, u, p)
  }

  lemma ReplayCovers(s: Node, t: nat, each: bool)
    requires Awake(s, each) && s.mode.Running? && t in s.threads && s.threads[t].Replaying? && !Overtaken(s, t, each)
    ensures Awake(s.(held := s.held[s.threads[t].pane := s.threads[t].ids]), each)
  {
    var p := s.threads[t].pane;
    var s' := s.(held := s.held[p := s.threads[t].ids]);
    forall e | Loose(s, e) && s.store[e].pane == p ensures RegisteredAt(s', p, e, each) {
      if u :| ReconciledBy(s, u, p) {
        assert ReconciledBy(s', u, p);
      }
    }
    RegisterCovers(s, p, s'.held, each);
  }

  lemma KeepReplayWrite(s: Node, t: nat, each: bool)
    requires Core(s) && s.mode.Running? && t in s.threads && s.threads[t].Replaying?
    ensures Core(DoReplayWrite(s, t))
    ensures Awake(s, each) && !Overtaken(s, t, each) ==> Awake(DoReplayWrite(s, t), each)
  {
    var p := s.threads[t].pane;
    var m := s.(held := s.held[p := s.threads[t].ids]);
    CoreRegister(s, m.held);
    if Awake(s, each) && !Overtaken(s, t, each) { ReplayCovers(s, t, each); }
    KeepPut(m, t, Arming({p}), p, each);
  }

  lemma OvertakenShows(s: Node, t: nat, each: bool)
    requires s.mode.Running? && Overtaken(s, t, each)
    ensures !Awake(DoReplayWrite(s, t), each)
  {
    var s', p := DoReplayWrite(s, t), s.threads[t].pane;
    var e :| Loose(s, e) && s.store[e].pane == p && (if each then e !in s.threads[t].ids else s.threads[t].ids == {});
    assert forall u :: ReconciledBy(s', u, p) ==> ReconciledBy(s, u, p);
    assert HeldAt(s', p) == s.threads[t].ids;
    assert Loose(s', e) && !RegisteredAt(s', p, e, each);
  }

  /**
   * Once a resend has registered its reading and armed the pane, something wakes for it exactly when the
   * reading names a row, or a thread other than the pane's registered wait cares for it.
   */
  lemma ReplayExact(s: Node, t: nat)
    requires WaitsShape(s) && t in s.threads && s.threads[t].Replaying?
    ensures var p := s.threads[t].pane;
      CoveredPane(DoArm(DoReplayWrite(s, t), t, p), p) <==>
      s.threads[t].ids != {} || exists u :: u != t && OtherCare(s, u, p)
  {
    var p := s.threads[t].pane;
    var m := Put(DoReplayWrite(s, t), t, Arming({p} - {p}));
    assert HeldAt(m, p) == s.threads[t].ids;
    assert forall u :: OtherCare(m, u, p) <==> u != t && OtherCare(s, u, p);
    ArmExactly(m, p);
  }

  /** After a cancel and its arm of a pane that listed the row: when the list names another row, or another thread cares. */
  lemma CancelExact(s: Node, e: EventId, p: Pane)
    requires WaitsShape(s) && e in s.store && e in HeldAt(s, p)
    ensures CoveredPane(DoArm(DoCancel(s, e), s.next, p), p) <==>
      HeldAt(s, p) != {e} || exists u :: OtherCare(s, u, p)
  {
    var s' := DoCancel(s, e);
    var m := Put(s', s.next, Arming(s'.threads[s.next].panes - {p}));
    assert HeldAt(m, p) == HeldAt(s, p) - {e};
    assert HeldAt(m, p) == {} <==> HeldAt(s, p) == {e};
    assert forall u :: OtherCare(m, u, p) <==> OtherCare(s, u, p);
    ArmExactly(m, p);
  }

  // ---------------------------------------------------------------- crash and restart

  /** What is left of the invariants while no thread lives. */
  predicate StoppedRow(s: Node, e: EventId)
    requires e in s.store
  {
    RowShape(s.seen, e, s.store[e]) && e !in s.cancelled && Rest(s, s.store[e]) && ReceiptOf(s, s.store[e])
  }

  ghost predicate Stopped(s: Node) {
    !s.mode.Running? && s.threads == map[] && s.inflight == {} && WaitsShape(s) &&
    (forall e | e in s.store :: StoppedRow(s, e)) &&
    s.delivered.Keys <= s.seen.Keys && s.cancelled <= s.seen.Keys && (forall e :: WithinLife(s, e))
  }

  lemma StoppedCore(s: Node)
    requires Stopped(s) && Recovery(s)
    ensures Core(s)
  {
    assert forall t, e :: !Owner(s, t, e);
    assert Shape(s) by {
      assert forall e | e in s.store :: StoppedRow(s, e);
    }
    forall e | e in s.store ensures Rest(s, s.store[e]) && ReceiptOf(s, s.store[e]) {
      assert StoppedRow(s, e);
    }
  }

  lemma CoreStopped(s: Node)
    requires Core(s) && !s.mode.Running?
    ensures Stopped(s)
  {
    forall e | e in s.store ensures StoppedRow(s, e) {
      assert Loose(s, e) && RowShape(s.seen, e, s.store[e]);
    }
  }

  lemma CrashCounts(s: Node, t: nat, e: EventId)
    requires t in s.threads
    ensures Count(DoCrash(s).cut, e) >= Count(s.cut, e)
    ensures e in Unsettled(s.threads[t]) ==> Count(DoCrash(s).cut, e) == Count(s.cut, e) + 1
  {
    if e in Unsettled(s.threads[t]) { assert e in Exposed(s); }
  }

  /** A stored row of a release was typed no more often than at rest, or its last inject is not settled yet. */
  lemma StoredPlace(s: Node, row: Row, place: Place, stored: Row)
    requires PlaceOK(s, row, place) && place != Unknown && row.eid in s.store && stored == s.store[row.eid]
    requires place.Out? ==> place.shots <= 2
    ensures stored.eid == row.eid
    ensures if place.Out? || place.Judged? || place.Noted? then Spent(s, stored) else Rest(s, stored)
  {
  }

  /** A crash leaves a stored row within what its attempts and the crashes allow. */
  lemma CrashedPlace(s: Node, t: nat, e: EventId)
    requires Owner(s, t, e) && RowOK(s, s.threads[t], e) && ThreadShape(s.seen, s.threads[t]) && e in s.store
    ensures Rest(DoCrash(s), s.store[e])
  {
    var th := s.threads[t];
    assert th.phase.Typed? ==> th.phase.shots <= 2;
    assert PlaceOf(th, e) != Unknown;
    StoredPlace(s, th.items[e], PlaceOf(th, e), s.store[e]);
    CrashCounts(s, t, e);
    assert DoCrash(s).typed == s.typed;
  }

  lemma CrashedRow(s: Node, e: EventId)
    requires Core(s) && e in s.store
    ensures StoppedRow(DoCrash(s), e)
  {
    assert RowShape(s.seen, e, s.store[e]);
    if t :| Owner(s, t, e) {
      OwnRow(s, t, e);
      CrashedPlace(s, t, e);
    } else {
      assert Loose(s, e);
    }
  }

  lemma KeepCrash(s: Node, each: bool)
    requires Core(s)
    ensures Core(DoCrash(s)) && Awake(DoCrash(s), each)
  {
    var s' := DoCrash(s);
    forall e | e in s'.store { CrashedRow(s, e); }
    forall e ensures WithinLife(s', e) { assert WithinLife(s, e); }
    StoppedCore(s');
  }

  lemma RestoreRecovery(s: Node)
    requires Stopped(s) && Recovery(s) && s.mode.Down?
    ensures Recovery(DoRestore(s))
  {
    var s' := DoRestore(s);
    forall e | e in s'.store ensures e in HeldAt(s', s'.store[e].pane) {
      assert e in RowsAt(s.store, s.store[e].pane);
    }
  }

  lemma RestoreStopped(s: Node)
    requires Stopped(s) && s.mode.Down?
    ensures Stopped(DoRestore(s))
  {
    var s' := DoRestore(s);
    assert s' == s.(held := s'.held, mode := s'.mode);
    forall e | e in s.store ensures StoppedRow(s', e) { assert StoppedRow(s, e); }
    forall e ensures WithinLife(s', e) { assert WithinLife(s, e); }
  }

  lemma KeepRestore(s: Node, each: bool)
    requires Core(s) && s.mode.Down?
    ensures Core(DoRestore(s)) && Awake(DoRestore(s), each)
  {
    CoreStopped(s);
    RestoreStopped(s);
    RestoreRecovery(s);
    StoppedCore(DoRestore(s));
  }

  /** Restoring one row keeps every other row as it was. */
  lemma RestoreRowFrame(s: Node, e: EventId)
    requires s.mode.Recovering?
    ensures var s' := DoRestoreRow(s, e);
      s' == s.(store := s'.store, held := s'.held, mode := s'.mode) && s'.mode.Recovering? &&
      ((s'.store == s.store && s'.held == s.held) || (s'.store == s.store - {e} && s'.held == Without(s.held, e)))
  {
  }

  lemma RestoreRowStopped(s: Node, e: EventId)
    requires Stopped(s) && s.mode.Recovering?
    ensures Stopped(DoRestoreRow(s, e))
  {
    var s' := DoRestoreRow(s, e);
    RestoreRowFrame(s, e);
    forall x | x in s'.store ensures StoppedRow(s', x) {
      assert StoppedRow(s, x) && s'.store[x] == s.store[x];
    }
    forall x ensures WithinLife(s', x) { assert WithinLife(s, x); }
  }

  /** A recorded row that does not match its record was edited. */
  lemma MismatchIsEdit(s: Node, e: EventId)
    requires e in s.store && s.store[e].eid == e && ReceiptOf(s, s.store[e]) && e in s.delivered
    ensures Matches(s, e) <==> s.store[e].text == s.taken[e]
    ensures !Matches(s, e) ==> e in s.edited
  {
  }

  lemma RestoreRowRecovery(s: Node, e: EventId)
    requires Recovery(s) && s.inflight == {} && s.mode.Recovering? && e in s.mode.left && s.mode.owed.None?
    requires e in s.store && StoppedRow(s, e)
    ensures Recovery(DoRestoreRow(s, e))
  {
    if e in s.delivered { MismatchIsEdit(s, e); }
    RestoreRowFrame(s, e);
    forall x | x in DoRestoreRow(s, e).store ensures x in HeldAt(DoRestoreRow(s, e), s.store[x].pane) {
      assert x in HeldAt(s, s.store[x].pane);
    }
  }

  lemma KeepRestoreRow(s: Node, e: EventId, each: bool)
    requires Core(s) && s.mode.Recovering? && e in s.mode.left && s.mode.owed.None?
    ensures Core(DoRestoreRow(s, e)) && Awake(DoRestoreRow(s, e), each)
  {
    CoreStopped(s);
    assert e in s.store && StoppedRow(s, e);
    RestoreRowStopped(s, e);
    RestoreRowRecovery(s, e);
    StoppedCore(DoRestoreRow(s, e));
  }

  lemma RestoreAckStopped(s: Node)
    requires Stopped(s) && s.mode.Recovering? && s.mode.owed.Some?
    ensures Stopped(DoRestoreAck(s))
  {
    var s' := DoRestoreAck(s);
    forall x | x in s'.store ensures StoppedRow(s', x) {
      assert StoppedRow(s, x);
    }
    forall x ensures WithinLife(s', x) { assert WithinLife(s, x); }
  }

  lemma RestoreAckRecovery(s: Node)
    requires Recovery(s) && s.inflight == {} && s.mode.Recovering? && s.mode.owed.Some?
    ensures Recovery(DoRestoreAck(s))
  {
    forall x | x in s.store ensures x in HeldAt(DoRestoreAck(s), s.store[x].pane) {
      assert x in HeldAt(s, s.store[x].pane);
    }
  }

  lemma KeepRestoreAck(s: Node, each: bool)
    requires Core(s) && s.mode.Recovering? && s.mode.owed.Some?
    ensures Core(DoRestoreAck(s)) && Awake(DoRestoreAck(s), each)
  {
    CoreStopped(s);
    RestoreAckStopped(s);
    RestoreAckRecovery(s);
    StoppedCore(DoRestoreAck(s));
  }

  lemma RestoreDoneCovers(s: Node, each: bool)
    requires Stopped(s) && Recovery(s) && s.mode.Recovering?
    ensures Awake(DoRestoreDone(s), each)
  {
    var s' := DoRestoreDone(s);
    forall x | Loose(s', x)
      ensures RegisteredAt(s', s'.store[x].pane, x, each) && CoveredPane(s', s'.store[x].pane)
    {
      assert x in HeldAt(s, s.store[x].pane);
      assert x in HeldAt(s', s.store[x].pane);
      assert CaredBy(s', s.next, s.store[x].pane);
    }
  }

  lemma RestoreDoneRows(s: Node)
    requires Stopped(s) && Recovery(s) && s.mode.Recovering? && s.mode.left == {} && s.mode.owed.None?
    ensures Ownership(DoRestoreDone(s)) && Facts(DoRestoreDone(s)) && TypedBound(DoRestoreDone(s))
    ensures Receipts(DoRestoreDone(s)) && Recovery(DoRestoreDone(s))
  {
    var s' := DoRestoreDone(s);
    assert forall t, x :: !Owner(s', t, x);
    forall e | e in s'.store ensures Rest(s', s'.store[e]) && ReceiptOf(s', s'.store[e]) {
      assert StoppedRow(s, e);
    }
    forall e ensures WithinLife(s', e) { assert WithinLife(s, e); }
  }

  lemma RestoreDoneShape(s: Node)
    requires Shape(s) && s.mode.Recovering?
    ensures Shape(DoRestoreDone(s))
  {
  }

  lemma KeepRestoreDone(s: Node, each: bool)
    requires Core(s) && s.mode.Recovering? && s.mode.left == {} && s.mode.owed.None?
    ensures Core(DoRestoreDone(s)) && Awake(DoRestoreDone(s), each)
  {
    CoreStopped(s);
    RestoreDoneShape(s);
    RestoreDoneCovers(s, each);
    RestoreDoneRows(s);
  }
}
