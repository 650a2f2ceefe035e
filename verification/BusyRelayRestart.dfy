/** Receipts, operator edits and acknowledgements, over whole runs with crashes and restarts. */
module BusyRelayRestart {
  import opened BusyRelay
  import opened BusyRelayInvariants
  import opened BusyRelayProofs
  import opened BusyRelayRuns
  import opened Options

  // ---------------------------------------------------------------- what no step changes

  lemma FinishMode(s: Node, t: nat)
    requires IsDelivering(s, t)
    ensures DoFinish(s, t).applyDedupe == s.applyDedupe && DoFinish(s, t).store == s.store && DoFinish(s, t).cancelled == s.cancelled
  {
  }

  lemma RestartMode(s: Node, ev: Event)
    requires Enabled(s, ev) && RestartEvent(ev)
    ensures Apply(s, ev).applyDedupe == s.applyDedupe && Apply(s, ev).store.Keys <= s.store.Keys
    ensures Apply(s, ev).cancelled == s.cancelled
  {
    if ev.RestoreRow? { RestoreRowFrame(s, ev.eid); }
  }

  lemma ModeStep(s: Node, ev: Event)
    requires Core(s) && Enabled(s, ev)
    ensures Apply(s, ev).applyDedupe == s.applyDedupe
  {
    if OfferEvent(ev) {
      IsEvent(s, ev);
    } else if DeliveryEvent(ev) {
      IsDelivery(s, ev);
    } else if TakeEvent(ev) {
      Took(s, ev);
    } else {
      ModeElse(s, ev);
    }
  }

  lemma ModeElse(s: Node, ev: Event)
    requires Core(s) && Enabled(s, ev) && !OfferEvent(ev) && !DeliveryEvent(ev) && !TakeEvent(ev)
    ensures Apply(s, ev).applyDedupe == s.applyDedupe
  {
    if QuietEvent(ev) {
      IsQuiet(s, ev);
    } else if ev.RearmRetry? {
      RearmFrame(s, ev.t);
    } else if ev.Finish? {
      FinishMode(s, ev.t);
    } else {
      RestartMode(s, ev);
    }
  }

  lemma {:induction false} ModeStays(s: Node, evs: seq<Event>)
    requires Core(s) && Possible(s, evs)
    ensures Run(s, evs).applyDedupe == s.applyDedupe
    decreases |evs|
  {
    if evs != [] {
      ModeStep(s, evs[0]);
      Keep(s, evs[0], true);
      ModeStays(Apply(s, evs[0]), evs[1..]);
    }
  }

  lemma ReachableApply(evs: seq<Event>)
    requires Possible(Init(true), evs)
    ensures Core(Run(Init(true), evs)) && Run(Init(true), evs).applyDedupe
  {
    InitCore(true, true);
    ReachableCore(true, evs);
    ModeStays(Init(true), evs);
  }

  /** Between the proof of a delivery and the end of its release, a crash finds the row held or recorded. */
  lemma ProvenSurvivesCrash(applyDedupe: bool, evs: seq<Event>, t: nat, e: EventId)
    requires Possible(Init(applyDedupe), evs)
    requires var s := Run(Init(applyDedupe), evs);
      (JudgedRow(s, t, e) && Proven(s.threads[t].phase.verdict, e) && e !in s.cancelled) || RecordedBy(s, t, e) ||
      (Owner(s, t, e) && e !in s.threads[t].todo && e in s.threads[t].fates && s.threads[t].fates[e] == Delivered)
    ensures var s := DoCrash(Run(Init(applyDedupe), evs)); e in s.store || e in s.delivered
  {
    ReachableCore(applyDedupe, evs);
    var s := Run(Init(applyDedupe), evs);
    assert ThreadShape(s.seen, s.threads[t]);
    assert Owner(s, t, e) && PlaceFacts(s, s.threads[t].items[e], PlaceOf(s.threads[t], e));
  }

  // ---------------------------------------------------------------- receipts decide what is typed again

  /** At a restart under apply, the rows to retire are exactly the recorded rows that still have the text their release took. */
  lemma RestoreDooms(evs: seq<Event>)
    requires Possible(Init(true), evs) && Run(Init(true), evs).mode.Down?
    ensures var s := Run(Init(true), evs);
      s.store.Keys * s.delivered.Keys <= s.taken.Keys &&
      DoRestore(s).mode.doomed == set e | e in s.store && e in s.delivered && s.store[e].text == s.taken[e]
  {
    ReachableApply(evs);
    var s := Run(Init(true), evs);
    forall e | e in s.store && e in s.delivered ensures e in s.taken && (Matches(s, e) <==> s.store[e].text == s.taken[e]) {
      assert RowShape(s.seen, e, s.store[e]) && ReceiptOf(s, s.store[e]);
      MismatchIsEdit(s, e);
    }
  }

  /** So a recorded row that nobody edited after its release took it is retired. */
  lemma UneditedRetired(evs: seq<Event>, e: EventId)
    requires Possible(Init(true), evs)
    requires var s := Run(Init(true), evs); s.mode.Down? && e in s.store && e in s.delivered && e !in s.edited
    ensures e in DoRestore(Run(Init(true), evs)).mode.doomed
  {
    ReachableApply(evs);
    var s := Run(Init(true), evs);
    assert RowShape(s.seen, e, s.store[e]) && ReceiptOf(s, s.store[e]);
    MismatchIsEdit(s, e);
  }

  /** The pass over the restored rows takes a recorded row out of the store exactly then. */
  lemma RetiredExactly(evs: seq<Event>, e: EventId)
    requires Possible(Init(true), evs)
    requires var s := Run(Init(true), evs); s.mode.Recovering? && e in s.mode.left && e in s.delivered
    ensures var s := Run(Init(true), evs);
      e in s.store && e in s.taken && (e !in DoRestoreRow(s, e).store <==> s.store[e].text == s.taken[e])
  {
    ReachableApply(evs);
    var s := Run(Init(true), evs);
    assert RowShape(s.seen, e, s.store[e]) && ReceiptOf(s, s.store[e]);
    MismatchIsEdit(s, e);
  }

  /** Under apply, an event with a receipt is in no group a release may type, unless it was edited after its release took it. */
  lemma DeliveredNeverTyped(evs: seq<Event>, t: nat, g: set<EventId>, e: EventId)
    requires Possible(Init(true), evs)
    requires var s := Run(Init(true), evs);
      e in s.delivered && e !in s.edited && Enabled(s, TypeGroup(t, g))
    ensures e !in g
  {
    ReachableApply(evs);
    var s := Run(Init(true), evs);
    assert ThreadShape(s.seen, s.threads[t]);
    assert !(Owner(s, t, e) && e in s.threads[t].todo);
  }

  /** A step that changes the text of a row in flight or recorded. */
  predicate ChangesText(s: Node, ev: Event, e: EventId) {
    ev.Edit? && ev.eid == e && e in s.store && ev.text != s.store[e].text && (e in s.inflight || e in s.delivered)
  }

  lemma OfferEdits(s: Node, ev: Event)
    requires Enabled(s, ev) && OfferEvent(ev) && !ev.Edit?
    ensures Apply(s, ev).edited == s.edited
  {
    match ev
    case OfferHold(row) => assert DoOfferHold(s, row, 0).edited == s.edited;
    case OfferRetry(row) => assert DoOfferHold(s, row, 1).edited == s.edited;
    case OfferTyped(row, shots, landed) =>
    case Cancel(x) => assert DoCancel(s, x).edited == s.edited;
  }

  lemma FinishEdits(s: Node, t: nat)
    requires IsDelivering(s, t)
    ensures DoFinish(s, t).edited == s.edited && DoFinish(s, t).taken == s.taken
  {
  }

  /** Nothing but such an edit marks a row as edited. */
  lemma EditedByEdit(s: Node, ev: Event, e: EventId)
    requires Core(s) && Enabled(s, ev) && e !in s.edited && e in Apply(s, ev).edited
    ensures ChangesText(s, ev, e)
  {
    if ev.Edit? {
      assert Apply(s, ev) == DoEdit(s, ev.eid, ev.text);
    } else if OfferEvent(ev) {
      OfferEdits(s, ev);
    } else if DeliveryEvent(ev) {
      IsDelivery(s, ev);
    } else if TakeEvent(ev) {
      Took(s, ev);
    } else if QuietEvent(ev) {
      IsQuiet(s, ev);
    } else if ev.RearmRetry? {
      RearmFrame(s, ev.t);
    } else if ev.Finish? {
      FinishEdits(s, ev.t);
    } else {
      RestartReceipts(s, ev);
    }
  }

  // ---------------------------------------------------------------- where the texts taken come from

  lemma TookTexts(s: Node, t: nat, items: map<EventId, Row>, held: map<Pane, set<EventId>>, always: bool, e: EventId)
    requires t in s.threads && s.threads[t].Woken? && !SameTaken(s, Take(s, t, items, held, always), e)
    ensures e in items && (e !in s.delivered || e !in s.taken) && Take(s, t, items, held, always).taken[e] == items[e].text
  {
  }

  lemma TakesText(s: Node, ev: Event, e: EventId)
    requires Enabled(s, ev) && TakeEvent(ev) && !SameTaken(s, Apply(s, ev), e)
    ensures Loose(s, e) && (e !in s.delivered || e !in s.taken) && e in Apply(s, ev).taken
    ensures Apply(s, ev).taken[e] == s.store[e].text && s.store[e].pane == s.threads[ev.t].pane
  {
    var t, p := ev.t, s.threads[ev.t].pane;
    if ev.TakeAll? {
      TookTexts(s, t, Snapshot(s, p), s.held - {p}, false, e);
    } else {
      WorkingCases(s, t, ev.expired);
      TookTexts(s, t, WorkingItems(s, p, ev.expired), WorkingHeld(s, p, ev.expired), true, e);
    }
  }

  /** The text kept for an event changes only when a release takes the row before it is recorded, and is the text stored then. */
  lemma TakenByTake(s: Node, ev: Event, e: EventId)
    requires Core(s) && Enabled(s, ev) && !SameTaken(s, Apply(s, ev), e)
    ensures TakeEvent(ev) && Loose(s, e) && e !in s.delivered && e in Apply(s, ev).taken
    ensures Apply(s, ev).taken[e] == s.store[e].text
  {
    if OfferEvent(ev) {
      IsEvent(s, ev);
    } else if DeliveryEvent(ev) {
      IsDelivery(s, ev);
    } else if TakeEvent(ev) {
      TakesText(s, ev, e);
      assert RowShape(s.seen, e, s.store[e]) && ReceiptOf(s, s.store[e]);
    } else if QuietEvent(ev) {
      IsQuiet(s, ev);
    } else if ev.RearmRetry? {
      RearmFrame(s, ev.t);
    } else if ev.Finish? {
      FinishEdits(s, ev.t);
    } else {
      RestartReceipts(s, ev);
    }
  }

  ghost predicate NeverChanged(s: Node, evs: seq<Event>, e: EventId)
    requires Possible(s, evs)
    decreases |evs|
  {
    evs == [] || (!ChangesText(s, evs[0], e) && NeverChanged(Apply(s, evs[0]), evs[1..], e))
  }

  /** In a run without one the row is not edited, so its receipt is the last word about it. */
  lemma {:induction false} NeverEdited(s: Node, evs: seq<Event>, e: EventId)
    requires Core(s) && Possible(s, evs) && NeverChanged(s, evs, e) && e !in s.edited
    ensures e !in Run(s, evs).edited
    decreases |evs|
  {
    if evs != [] {
      if e in Apply(s, evs[0]).edited { EditedByEdit(s, evs[0], e); }
      Keep(s, evs[0], true);
      NeverEdited(Apply(s, evs[0]), evs[1..], e);
    }
  }

  /** A retry holds the row again with the text its release took, whatever an operator made of it meanwhile. */
  lemma RetryUndoesEdit(apply: bool, evs: seq<Event>, t: nat)
    requires Possible(Init(apply), evs)
    requires var s := Run(Init(apply), evs); IsDelivering(s, t) && s.threads[t].phase.Rehold?
    ensures var s := Run(Init(apply), evs); var e := s.threads[t].phase.row.eid;
      e in DoReinsert(s, t).store && e in s.threads[t].items &&
      DoReinsert(s, t).store[e].text == s.threads[t].items[e].text &&
      (e !in s.delivered ==> e in s.taken && DoReinsert(s, t).store[e].text == s.taken[e])
  {
    ReachableCore(apply, evs);
    var s := Run(Init(apply), evs);
    var e := s.threads[t].phase.row.eid;
    assert ThreadShape(s.seen, s.threads[t]);
    assert Owner(s, t, e) && PlaceOf(s.threads[t], e) == Lifted;
  }

  // ---------------------------------------------------------------- a cancelled row that comes back

  lemma SettleNoNew(s: Node, ev: Event)
    requires Enabled(s, ev) && SettleEvent(ev)
    ensures Apply(s, ev).store.Keys <= s.store.Keys
  {
  }

  lemma UntypedNoNew(s: Node, ev: Event)
    requires Enabled(s, ev) && (ev.DropRow? || ev.LeaveRow? || ev.Unverifiable?)
    ensures Apply(s, ev).store.Keys <= s.store.Keys
  {
    if ev.Unverifiable? {
      assert DoDropRow(s, ev.t, ev.eid, Exhausted).store.Keys <= s.store.Keys;
      assert DoHoldAgain(s, ev.t, ev.eid).store.Keys <= s.store.Keys;
    }
  }

  lemma InjectNoNew(s: Node, ev: Event)
    requires Enabled(s, ev) && InjectEvent(ev) && !ev.Finish?
    ensures Apply(s, ev).store == s.store
  {
  }

  /** Of the steps of a release only the new hold of a retry stores a row. */
  lemma DeliveryNoNew(s: Node, ev: Event)
    requires Enabled(s, ev) && DeliveryEvent(ev) && !ev.Reinsert?
    ensures Apply(s, ev).store.Keys <= s.store.Keys
  {
    if SettleEvent(ev) {
      SettleNoNew(s, ev);
    } else if InjectEvent(ev) {
      InjectNoNew(s, ev);
    } else {
      UntypedNoNew(s, ev);
    }
  }

  lemma OfferNoNew(s: Node, ev: Event, e: EventId)
    requires Core(s) && Enabled(s, ev) && OfferEvent(ev) && e in s.cancelled
    ensures e !in Apply(s, ev).store
  {
    IsEvent(s, ev);
    if ev.Edit? || ev.Cancel? {
      assert ev.eid != e;
    } else {
      assert ev.row.eid != e;
    }
    assert SameRow(s, Apply(s, ev), e);
  }

  lemma ReinsertOnly(s: Node, t: nat, e: EventId)
    requires IsDelivering(s, t) && s.threads[t].phase.Rehold? && e !in s.store
    ensures e in DoReinsert(s, t).store <==> Reholding(s, t, e)
  {
  }

  /** The retry that holds this row again. */
  predicate Revives(s: Node, ev: Event, e: EventId) {
    ev.Reinsert? && Reholding(s, ev.t, e)
  }

  /** A row an operator cancelled is back in the store after a step exactly when the step is the new hold of its retry. */
  lemma RevivedExactly(apply: bool, evs: seq<Event>, ev: Event, e: EventId)
    requires Possible(Init(apply), evs) && Enabled(Run(Init(apply), evs), ev) && e in Run(Init(apply), evs).cancelled
    ensures var s := Run(Init(apply), evs); e !in s.store && (e in Apply(s, ev).store <==> Revives(s, ev, e))
  {
    ReachableCore(apply, evs);
    var s := Run(Init(apply), evs);
    RevivedStep(s, ev, e);
  }

  lemma RevivedStep(s: Node, ev: Event, e: EventId)
    requires Core(s) && Enabled(s, ev) && e in s.cancelled
    ensures e !in s.store && (e in Apply(s, ev).store <==> Revives(s, ev, e))
  {
    if OfferEvent(ev) {
      OfferNoNew(s, ev, e);
    } else if ev.Reinsert? {
      ReinsertOnly(s, ev.t, e);
    } else {
      NoNewRow(s, ev);
    }
  }

  /** Only an offer and the new hold of a retry store a row. */
  lemma NoNewRow(s: Node, ev: Event)
    requires Core(s) && Enabled(s, ev) && !OfferEvent(ev) && !ev.Reinsert?
    ensures Apply(s, ev).store.Keys <= s.store.Keys
  {
    if DeliveryEvent(ev) {
      DeliveryNoNew(s, ev);
    } else if TakeEvent(ev) {
      Took(s, ev);
    } else if QuietEvent(ev) {
      IsQuiet(s, ev);
    } else if ev.RearmRetry? {
      RearmFrame(s, ev.t);
    } else if ev.Finish? {
      FinishMode(s, ev.t);
    } else {
      RestartMode(s, ev);
    }
  }

  // ---------------------------------------------------------------- acknowledgements

  /** When a restart has finished, each row it had to retire was acknowledged exactly once and is no longer held. */
  lemma RestartAcksOnce(applyDedupe: bool, evs: seq<Event>, e: EventId)
    requires Possible(Init(applyDedupe), evs)
    requires var s := Run(Init(applyDedupe), evs); Enabled(s, RestoreDone) && e in s.mode.doomed
    ensures var s := Run(Init(applyDedupe), evs); e in s.acks && s.acks[e] == 1 && e !in s.store
  {
    ReachableCore(applyDedupe, evs);
  }

  /**
   * A restart that crashes leaves a row it had to retire acknowledged, or to the next restart, exactly
   * when it did not crash between the row's delete and its acknowledgement.
   */
  lemma AckLostExactly(evs: seq<Event>, e: EventId)
    requires Possible(Init(true), evs)
    requires var s := Run(Init(true), evs); s.mode.Recovering? && e in s.mode.doomed
    ensures var s := Run(Init(true), evs); var s' := DoRestore(DoCrash(s));
      e in s'.acks || e in s'.mode.doomed <==> s.mode.owed != Some(e)
  {
    ReachableApply(evs);
    CrashOrAck(Run(Init(true), evs), e);
  }

  lemma CrashOrAck(s: Node, e: EventId)
    requires Recovery(s) && s.mode.Recovering? && s.applyDedupe && e in s.mode.doomed
    ensures var s' := DoRestore(DoCrash(s)); e in s'.acks || e in s'.mode.doomed <==> s.mode.owed != Some(e)
  {
  }

  /** An acknowledged row was acknowledged once, and is never held or in flight again. */
  lemma AckedForGood(applyDedupe: bool, evs: seq<Event>, e: EventId)
    requires Possible(Init(applyDedupe), evs) && e in Run(Init(applyDedupe), evs).acks
    ensures var s := Run(Init(applyDedupe), evs); s.acks[e] == 1 && e !in s.store && e !in s.inflight
  {
    ReachableCore(applyDedupe, evs);
  }

  /** The node has no trace of the event but its receipt, and owes no acknowledgement for it. */
  predicate Gone(s: Node, e: EventId) {
    e in s.seen && e !in s.store && e !in s.inflight && !(s.mode.Recovering? && s.mode.owed == Some(e))
  }

  /** The event is still gone, and no acknowledgement was made for it. */
  predicate StillGone(s: Node, s': Node, e: EventId) {
    Gone(s', e) && (e in s'.acks <==> e in s.acks)
  }

  lemma GoneOffer(s: Node, s': Node, x: EventId, e: EventId)
    requires Gone(s, e) && EventStep(s, s', x) && x != e
    ensures StillGone(s, s', e)
  {
    assert SameRow(s, s', e);
  }

  lemma GoneDelivery(s: Node, s': Node, t: nat, e: EventId)
    requires Gone(s, e) && DeliveryStep(s, s', t) && !Owner(s, t, e)
    ensures StillGone(s, s', e)
  {
    assert SameRow(s, s', e);
  }

  lemma GoneQuiet(s: Node, s': Node, e: EventId)
    requires Gone(s, e) && s' == s.(held := s'.held, waits := s'.waits, threads := s'.threads, next := s'.next)
    ensures StillGone(s, s', e)
  {
  }

  lemma GoneTook(s: Node, s': Node, t: nat, e: EventId)
    requires Gone(s, e) && TookStep(s, s', t)
    ensures StillGone(s, s', e)
  {
  }

  lemma GoneFinish(s: Node, t: nat, e: EventId)
    requires IsDelivering(s, t) && Gone(s, e)
    ensures StillGone(s, DoFinish(s, t), e)
  {
  }

  lemma GoneRestoreRow(s: Node, x: EventId, e: EventId)
    requires s.mode.Recovering? && Gone(s, e) && x != e
    ensures StillGone(s, DoRestoreRow(s, x), e)
  {
  }

  /** A step that leaves the tables alone and owes nothing. */
  lemma GoneTables(s: Node, s': Node, e: EventId)
    requires Gone(s, e) && s'.store == s.store && s'.seen == s.seen && s'.acks == s.acks && s'.inflight <= s.inflight
    requires s'.mode.Recovering? ==> s'.mode.owed.None?
    ensures StillGone(s, s', e)
  {
  }

  lemma GoneDown(s: Node, ev: Event, e: EventId)
    requires Enabled(s, ev) && (ev.Crash? || ev.Restore? || ev.RestoreDone?) && Gone(s, e)
    ensures StillGone(s, Apply(s, ev), e)
  {
    GoneTables(s, Apply(s, ev), e);
  }

  lemma GoneAck(s: Node, e: EventId)
    requires s.mode.Recovering? && s.mode.owed.Some? && Gone(s, e)
    ensures StillGone(s, DoRestoreAck(s), e)
  {
  }

  lemma GoneRestart(s: Node, ev: Event, e: EventId)
    requires Recovery(s) && Enabled(s, ev) && RestartEvent(ev) && Gone(s, e)
    ensures StillGone(s, Apply(s, ev), e)
  {
    if ev.RestoreRow? {
      GoneRestoreRow(s, ev.eid, e);
    } else if ev.RestoreAck? {
      GoneAck(s, e);
    } else {
      GoneDown(s, ev, e);
    }
  }

  lemma OthersOnly(s: Node, ev: Event, e: EventId)
    requires Enabled(s, ev) && OfferEvent(ev) && Gone(s, e)
    ensures Subject(ev) != e
  {
  }

  lemma GoneOfferEvent(s: Node, ev: Event, e: EventId)
    requires Core(s) && Enabled(s, ev) && OfferEvent(ev) && Gone(s, e)
    ensures StillGone(s, Apply(s, ev), e)
  {
    IsEvent(s, ev);
    OthersOnly(s, ev, e);
    GoneOffer(s, Apply(s, ev), Subject(ev), e);
  }

  lemma GoneDeliveryEvent(s: Node, ev: Event, e: EventId)
    requires Shape(s) && Ownership(s) && Enabled(s, ev) && DeliveryEvent(ev) && Gone(s, e)
    ensures StillGone(s, Apply(s, ev), e)
  {
    IsDelivery(s, ev);
    assert !Owner(s, ev.t, e);
    GoneDelivery(s, Apply(s, ev), ev.t, e);
  }

  lemma GoneStep(s: Node, ev: Event, e: EventId)
    requires Core(s) && Enabled(s, ev) && Gone(s, e)
    ensures StillGone(s, Apply(s, ev), e)
  {
    if OfferEvent(ev) {
      GoneOfferEvent(s, ev, e);
    } else if DeliveryEvent(ev) {
      GoneDeliveryEvent(s, ev, e);
    } else if TakeEvent(ev) {
      Took(s, ev);
      GoneTook(s, Apply(s, ev), ev.t, e);
    } else if QuietEvent(ev) {
      IsQuiet(s, ev);
      GoneQuiet(s, Apply(s, ev), e);
    } else {
      GoneElse(s, ev, e);
    }
  }

  lemma GoneElse(s: Node, ev: Event, e: EventId)
    requires Recovery(s) && Enabled(s, ev) && Gone(s, e) && (RestartEvent(ev) || ev.Finish? || ev.RearmRetry?)
    ensures StillGone(s, Apply(s, ev), e)
  {
    if ev.RearmRetry? {
      RearmFrame(s, ev.t);
      GoneQuiet(s, DoRearmRetry(s, ev.t), e);
    } else if ev.Finish? {
      GoneFinish(s, ev.t, e);
    } else {
      GoneRestart(s, ev, e);
    }
  }

  /** A row that is gone stays gone, and an acknowledgement it never had never comes. */
  lemma {:induction false} GoneForGood(s: Node, evs: seq<Event>, e: EventId)
    requires Core(s) && Possible(s, evs) && Gone(s, e)
    ensures Gone(Run(s, evs), e) && (e in Run(s, evs).acks <==> e in s.acks)
    decreases |evs|
  {
    if evs != [] {
      GoneStep(s, evs[0], e);
      Keep(s, evs[0], true);
      GoneForGood(Apply(s, evs[0]), evs[1..], e);
    }
  }

  /** After a crash in between, no run ever brings the acknowledgement. */
  lemma AckLostForGood(s: Node, e: EventId, evs: seq<Event>)
    requires Core(s) && s.mode.Recovering? && s.mode.owed == Some(e) && Possible(DoCrash(s), evs)
    ensures e !in Run(DoCrash(s), evs).acks && e !in Run(DoCrash(s), evs).store
  {
    KeepCrash(s, true);
    GoneForGood(DoCrash(s), evs, e);
  }
}
