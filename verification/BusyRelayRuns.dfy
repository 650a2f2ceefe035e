/** Whole runs of the busy relay: what holds in every reachable state. */
module BusyRelayRuns {
  import opened BusyRelay
  import opened BusyRelayInvariants
  import opened BusyRelayProofs

  function Init(applyDedupe: bool): Node {
    Node(map[], map[], map[], map[], {}, map[], 0, Running, applyDedupe, map[], {}, map[], map[], map[], {}, map[])
  }

  ghost predicate Possible(s: Node, evs: seq<Event>)
    decreases |evs|
  {
    evs == [] || (Enabled(s, evs[0]) && Possible(Apply(s, evs[0]), evs[1..]))
  }

  ghost function Run(s: Node, evs: seq<Event>): Node
    requires Possible(s, evs)
    decreases |evs|
  {
    if evs == [] then s else Run(Apply(s, evs[0]), evs[1..])
  }

  /**
   * The steps after which a pane's list leaves out what it should name: a resend registers
   * a reading other holds have overtaken, or a cancel takes the last listed row away.
   */
  ghost predicate Forgets(s: Node, ev: Event, each: bool) {
    (ev.ReplayWrite? && Overtaken(s, ev.t, each)) || (ev.Cancel? && !each && Empties(s, ev.eid))
  }

  /** A run without such a step. */
  ghost predicate Steady(s: Node, evs: seq<Event>, each: bool)
    decreases |evs|
  {
    evs == [] || (Enabled(s, evs[0]) && !Forgets(s, evs[0], each) && Steady(Apply(s, evs[0]), evs[1..], each))
  }

  predicate UntypedEvent(ev: Event) {
    ev.DropRow? || ev.LeaveRow? || ev.Unverifiable? || ev.Reinsert? || ev.RearmRetry?
  }

  predicate InjectEvent(ev: Event) {
    ev.TypeGroup? || ev.TypeAgain? || ev.Judge? || ev.Finish?
  }

  predicate SettleEvent(ev: Event) {
    ev.SettleDrop? || ev.SettleRecord? || ev.SettleDelete? || ev.SettleRetry?
  }

  predicate WaitEvent(ev: Event) {
    ev.Arm? || ev.WakeUp? || ev.WaitDies? || ev.TakeAll? || ev.TakeWorking?
  }

  predicate RegisterEvent(ev: Event) {
    ev.Reconcile? || ev.RearmCheck? || ev.Replay? || ev.ReplayRead? || ev.ReplayWrite? || ev.Resume?
  }

  predicate OfferEvent(ev: Event) {
    ev.OfferHold? || ev.OfferRetry? || ev.OfferTyped? || ev.Edit? || ev.Cancel?
  }

  predicate RestartEvent(ev: Event) {
    ev.Crash? || ev.Restore? || ev.RestoreRow? || ev.RestoreAck? || ev.RestoreDone?
  }

  lemma KeepUnverifiable(s: Node, t: nat, e: EventId, each: bool)
    requires Core(s) && IdleRow(s, t, e)
    ensures Core(DoUnverifiable(s, t, e))
    ensures Awake(s, each) ==> Awake(DoUnverifiable(s, t, e), each)
  {
    if s.threads[t].items[e].attempts + 1 >= MAX_ATTEMPTS {
      KeepDropRow(s, t, e, Exhausted, each);
    } else {
      KeepHoldAgain(s, t, e, each);
    }
  }

  lemma KeepUntypedEvent(s: Node, ev: Event, each: bool)
    requires Core(s) && Enabled(s, ev) && UntypedEvent(ev)
    ensures Core(Apply(s, ev))
    ensures Awake(s, each) && !Forgets(s, ev, each) ==> Awake(Apply(s, ev), each)
  {
    if ev.DropRow? {
      KeepDropRow(s, ev.t, ev.eid, LeaseEnded, each);
    } else if ev.LeaveRow? {
      KeepLeaveRow(s, ev.t, ev.eid, each);
    } else if ev.Unverifiable? {
      KeepUnverifiable(s, ev.t, ev.eid, each);
    } else if ev.Reinsert? {
      KeepReinsert(s, ev.t, each);
    } else {
      KeepRearmRetry(s, ev.t, each);
    }
  }

  lemma KeepInjectEvent(s: Node, ev: Event, each: bool)
    requires Core(s) && Enabled(s, ev) && InjectEvent(ev)
    ensures Core(Apply(s, ev))
    ensures Awake(s, each) && !Forgets(s, ev, each) ==> Awake(Apply(s, ev), each)
  {
    match ev
    case TypeGroup(t, g) => KeepTypeGroup(s, t, g, each);
    case TypeAgain(t) => KeepTypeAgain(s, t, each);
    case Judge(t, v) => KeepJudge(s, t, v, each);
    case Finish(t) => KeepFinish(s, t, each);
  }

  lemma KeepSettleEvent(s: Node, ev: Event, each: bool)
    requires Core(s) && Enabled(s, ev) && SettleEvent(ev)
    ensures Core(Apply(s, ev))
    ensures Awake(s, each) && !Forgets(s, ev, each) ==> Awake(Apply(s, ev), each)
  {
    if ev.SettleDrop? {
      KeepSettleDrop(s, ev.t, ev.eid, each);
    } else if ev.SettleRecord? {
      KeepSettleRecord(s, ev.t, ev.eid, each);
    } else if ev.SettleDelete? {
      KeepSettleDelete(s, ev.t, each);
    } else {
      KeepSettleRetry(s, ev.t, ev.eid, each);
    }
  }

  lemma KeepWaitEvent(s: Node, ev: Event, each: bool)
    requires Core(s) && Enabled(s, ev) && WaitEvent(ev)
    ensures Core(Apply(s, ev))
    ensures Awake(s, each) && !Forgets(s, ev, each) ==> Awake(Apply(s, ev), each)
  {
    match ev
    case Arm(t, p) => KeepArm(s, t, p, each);
    case WakeUp(t) => KeepWakeUp(s, t, each);
    case WaitDies(t) => KeepWaitDies(s, t, each);
    case TakeAll(t) => KeepTakeAll(s, t, each);
    case TakeWorking(t, expired) => KeepTakeWorking(s, t, expired, each);
  }

  lemma KeepRegisterEvent(s: Node, ev: Event, each: bool)
    requires Core(s) && Enabled(s, ev) && RegisterEvent(ev)
    ensures Core(Apply(s, ev))
    ensures Awake(s, each) && !Forgets(s, ev, each) ==> Awake(Apply(s, ev), each)
  {
    match ev
    case Reconcile(t) => KeepReconcile(s, t, each);
    case RearmCheck(t) => KeepRearmCheck(s, t, each);
    case Replay(e) => KeepSpawn(s, Resending(s.store[e].pane), each);
    case ReplayRead(t) => KeepReplayRead(s, t, each);
    case ReplayWrite(t) => KeepReplayWrite(s, t, each);
    case Resume => KeepSpawn(s, Arming(s.held.Keys), each);
  }

  lemma KeepOfferEvent(s: Node, ev: Event, each: bool)
    requires Core(s) && Enabled(s, ev) && OfferEvent(ev)
    ensures Core(Apply(s, ev))
    ensures Awake(s, each) && !Forgets(s, ev, each) ==> Awake(Apply(s, ev), each)
  {
    match ev
    case OfferHold(row) => KeepOfferHold(s, row, 0, each);
    case OfferRetry(row) => KeepOfferHold(s, row, 1, each);
    case OfferTyped(row, shots, landed) => KeepOfferTyped(s, row, shots, landed, each);
    case Edit(e, text) => KeepEdit(s, e, text, each);
    case Cancel(e) => KeepCancel(s, e, each);
  }

  lemma KeepRestartEvent(s: Node, ev: Event, each: bool)
    requires Core(s) && Enabled(s, ev) && RestartEvent(ev)
    ensures Core(Apply(s, ev))
    ensures Awake(s, each) && !Forgets(s, ev, each) ==> Awake(Apply(s, ev), each)
  {
    if ev.Crash? {
      KeepCrash(s, each);
    } else if ev.Restore? {
      KeepRestore(s, each);
    } else if ev.RestoreRow? {
      KeepRestoreRow(s, ev.eid, each);
    } else if ev.RestoreAck? {
      KeepRestoreAck(s, each);
    } else {
      KeepRestoreDone(s, each);
    }
  }

  lemma Keep(s: Node, ev: Event, each: bool)
    requires Core(s) && Enabled(s, ev)
    ensures Core(Apply(s, ev))
    ensures Awake(s, each) && !Forgets(s, ev, each) ==> Awake(Apply(s, ev), each)
  {
    if UntypedEvent(ev) {
      KeepUntypedEvent(s, ev, each);
    } else if InjectEvent(ev) {
      KeepInjectEvent(s, ev, each);
    } else if SettleEvent(ev) {
      KeepSettleEvent(s, ev, each);
    } else if WaitEvent(ev) {
      KeepWaitEvent(s, ev, each);
    } else if RegisterEvent(ev) {
      KeepRegisterEvent(s, ev, each);
    } else if OfferEvent(ev) {
      KeepOfferEvent(s, ev, each);
    } else {
      KeepRestartEvent(s, ev, each);
    }
  }

  lemma ForgetsShows(s: Node, ev: Event, each: bool)
    requires Shape(s) && Enabled(s, ev) && Forgets(s, ev, each)
    ensures !Awake(Apply(s, ev), each)
  {
    if ev.Cancel? { CancelEmpties(s, ev.eid); } else { OvertakenShows(s, ev.t, each); }
  }

  /** A step keeps every loose row registered and its pane covered exactly when it is not one of those two. */
  lemma StepExactly(s: Node, ev: Event, each: bool)
    requires Core(s) && Awake(s, each) && Enabled(s, ev)
    ensures Awake(Apply(s, ev), each) <==> !Forgets(s, ev, each)
  {
    if Forgets(s, ev, each) { ForgetsShows(s, ev, each); } else { Keep(s, ev, each); }
  }

  lemma InitCore(applyDedupe: bool, each: bool)
    ensures Core(Init(applyDedupe)) && Awake(Init(applyDedupe), each)
  {
    assert forall t, e :: !Owner(Init(applyDedupe), t, e);
  }

  lemma {:induction false} RunInv(s: Node, evs: seq<Event>)
    requires Core(s) && Possible(s, evs)
    ensures Core(Run(s, evs))
    decreases |evs|
  {
    if evs != [] {
      Keep(s, evs[0], true);
      RunInv(Apply(s, evs[0]), evs[1..]);
    }
  }

  lemma {:induction false} RunAwake(s: Node, evs: seq<Event>, each: bool)
    requires Core(s) && Awake(s, each) && Steady(s, evs, each)
    ensures Possible(s, evs) && Core(Run(s, evs)) && Awake(Run(s, evs), each)
    decreases |evs|
  {
    if evs != [] {
      Keep(s, evs[0], each);
      RunAwake(Apply(s, evs[0]), evs[1..], each);
    }
  }

  lemma ReachableCore(applyDedupe: bool, evs: seq<Event>)
    requires Possible(Init(applyDedupe), evs)
    ensures Core(Run(Init(applyDedupe), evs))
  {
    InitCore(applyDedupe, true);
    RunInv(Init(applyDedupe), evs);
  }

  lemma ReachableAwake(applyDedupe: bool, evs: seq<Event>, each: bool)
    requires Steady(Init(applyDedupe), evs, each)
    ensures Possible(Init(applyDedupe), evs)
    ensures Core(Run(Init(applyDedupe), evs)) && Awake(Run(Init(applyDedupe), evs), each)
  {
    InitCore(applyDedupe, each);
    RunAwake(Init(applyDedupe), evs, each);
  }

  // ---------------------------------------------------------------- no row is stranded

  /** A stored row is in a delivery, or its pane's list names it (or some row) and something will wake for the pane. */
  lemma NoRowStranded(applyDedupe: bool, evs: seq<Event>, e: EventId, each: bool)
    requires Steady(Init(applyDedupe), evs, each)
    ensures Possible(Init(applyDedupe), evs)
    ensures var s := Run(Init(applyDedupe), evs);
      s.mode.Running? && e in s.store ==>
        (exists t :: Owner(s, t, e)) ||
        (RegisteredAt(s, s.store[e].pane, e, each) && CoveredPane(s, s.store[e].pane))
  {
    ReachableAwake(applyDedupe, evs, each);
    var s := Run(Init(applyDedupe), evs);
    if e in s.store && e !in s.inflight { assert Loose(s, e); }
  }

  /** Once every release and command is over, each stored row sits behind a live wait on its pane. */
  lemma QuietNodeWaits(applyDedupe: bool, evs: seq<Event>, e: EventId, each: bool)
    requires Steady(Init(applyDedupe), evs, each)
    ensures Possible(Init(applyDedupe), evs)
    ensures var s := Run(Init(applyDedupe), evs);
      s.mode.Running? && e in s.store && (forall t | t in s.threads :: s.threads[t].Wait?) ==>
        InList(s, s.store[e].pane, e, each) && WaitedFor(s, s.store[e].pane)
  {
    ReachableAwake(applyDedupe, evs, each);
    var s := Run(Init(applyDedupe), evs);
    if s.mode.Running? && e in s.store && (forall t | t in s.threads :: s.threads[t].Wait?) {
      assert Loose(s, e);
      assert RegisteredAt(s, s.store[e].pane, e, each);
      var t :| CaredBy(s, t, s.store[e].pane);
      assert s.threads[t] == Wait(s.store[e].pane, false);
    }
  }

  ghost predicate WaitedFor(s: Node, p: Pane) {
    exists t :: t in s.threads && s.threads[t] == Wait(p, false)
  }

  /** The rows in flight are exactly the rows the releases took, and no two releases share one. */
  lemma OneOwner(applyDedupe: bool, evs: seq<Event>)
    requires Possible(Init(applyDedupe), evs)
    ensures var s := Run(Init(applyDedupe), evs);
      (forall e :: e in s.inflight <==> exists t :: Owner(s, t, e)) &&
      (forall t, u | IsDelivering(s, t) && IsDelivering(s, u) && t != u :: s.threads[t].items.Keys !! s.threads[u].items.Keys)
  {
    ReachableCore(applyDedupe, evs);
    var s := Run(Init(applyDedupe), evs);
    forall t, u | IsDelivering(s, t) && IsDelivering(s, u) && t != u
      ensures s.threads[t].items.Keys !! s.threads[u].items.Keys
    {
      forall e ensures !(e in s.threads[t].items && e in s.threads[u].items) {
        assert !(Owner(s, t, e) && Owner(s, u, e));
      }
    }
  }

  /** A release that ends gave each row it took one fate, and the tables say the same, but for what an operator did meanwhile. */
  lemma FinishAccounts(applyDedupe: bool, evs: seq<Event>, t: nat)
    requires Possible(Init(applyDedupe), evs)
    requires Enabled(Run(Init(applyDedupe), evs), Finish(t))
    ensures var s := Run(Init(applyDedupe), evs); var th := s.threads[t];
      th.fates.Keys == th.items.Keys && forall e | e in th.items :: FateHolds(s, th.items[e], th.fates[e])
  {
    ReachableCore(applyDedupe, evs);
    var s := Run(Init(applyDedupe), evs);
    assert ThreadShape(s.seen, s.threads[t]);
    forall e | e in s.threads[t].items ensures FateHolds(s, s.threads[t].items[e], s.threads[t].fates[e]) {
      assert Owner(s, t, e);
      assert PlaceFacts(s, s.threads[t].items[e], PlaceOf(s.threads[t], e));
    }
  }

  /**
   * Over its whole life on the node an event is typed at most three times, and once more for each crash
   * that cut an inject of it off; a directive twice, and twice more for each.
   */
  lemma TypedAtMost(applyDedupe: bool, evs: seq<Event>, e: EventId)
    requires Possible(Init(applyDedupe), evs)
    ensures var s := Run(Init(applyDedupe), evs);
      Count(s.typed, e) > 0 ==>
        e in s.seen && s.typed[e] <= (if s.seen[e] then 2 + 2 * Count(s.cut, e) else 3 + Count(s.cut, e))
  {
    ReachableCore(applyDedupe, evs);
    assert WithinLife(Run(Init(applyDedupe), evs), e);
  }

  // ---------------------------------------------------------------- what happens to a held row

  predicate Reholding(s: Node, t: nat, e: EventId) {
    IsDelivering(s, t) && InRehold(s.threads[t], e)
  }

  /** The row is held, recorded as delivered, or about to be held again. */
  ghost predicate Kept(s: Node, e: EventId) {
    e in s.store || e in s.delivered || exists t :: Reholding(s, t, e)
  }

  predicate DropsRow(s: Node, ev: Event, e: EventId) {
    match ev
    case Cancel(x) => x == e
    case DropRow(_, x) => x == e
    case SettleDrop(_, x) => x == e
    case Unverifiable(t, x) => x == e && IdleRow(s, t, x) && s.threads[t].items[e].attempts + 1 >= MAX_ATTEMPTS
    case _ => false
  }

  /** The reported ends of a row, and the crash between its delete and its new hold. */
  ghost predicate Discards(s: Node, ev: Event, e: EventId) {
    DropsRow(s, ev, e) || (ev.Crash? && exists t :: Reholding(s, t, e))
  }

  /** Row e leaves the store in this step: deleted by a release, by an operator or by the restart. */
  predicate Removes(s: Node, ev: Event, e: EventId) {
    match ev
    case Cancel(x) => x == e
    case DropRow(_, x) => x == e
    case SettleDrop(_, x) => x == e
    case Unverifiable(_, x) => x == e
    case SettleRetry(_, x) => x == e
    case SettleDelete(t) => IsDelivering(s, t) && s.threads[t].phase.Recorded? && s.threads[t].phase.eid == e
    case RestoreRow(x) => x == e
    case _ => false
  }

  // ---------------------------------------------------------------- steps that leave the tables alone

  predicate TablesSame(s: Node, s': Node) {
    s'.store == s.store && s'.delivered == s.delivered && s'.acks == s.acks && s'.seen == s.seen && s'.mode == s.mode &&
    s'.applyDedupe == s.applyDedupe && s'.cancelled == s.cancelled && s'.typed == s.typed
  }

  predicate QuietEvent(ev: Event) {
    ev.Arm? || ev.WakeUp? || ev.WaitDies? || RegisterEvent(ev)
  }

  lemma ArmIsQuiet(s: Node, t: nat, p: Pane)
    requires Shape(s) && t in s.threads && s.threads[t].Arming?
    ensures QuietStep(s, DoArm(s, t, p))
  {
    var m := Put(s, t, Arming(s.threads[t].panes - {p}));
    PutQuiet(s, t, Arming(s.threads[t].panes - {p}));
    ArmQuiet(m, p);
    QuietTrans(s, m, ArmPane(m, p));
  }

  lemma RegisterIsQuiet(s: Node, ev: Event)
    requires Shape(s) && Enabled(s, ev) && RegisterEvent(ev)
    ensures QuietStep(s, Apply(s, ev))
  {
    match ev
    case Reconcile(t) => ReconcileIsQuiet(s, t);
    case RearmCheck(t) => RearmIsQuiet(s, t);
    case Replay(e) => SpawnQuiet(s, Resending(s.store[e].pane));
    case ReplayRead(t) => PutQuiet(s, t, Replaying(s.threads[t].pane, RowsAt(s.store, s.threads[t].pane)));
    case ReplayWrite(t) => ReplayIsQuiet(s, t);
    case Resume => SpawnQuiet(s, Arming(s.held.Keys));
  }

  lemma ReconcileIsQuiet(s: Node, t: nat)
    requires Shape(s) && t in s.threads && s.threads[t].Reconciling?
    ensures QuietStep(s, DoReconcile(s, t))
  {
    var m := s.(held := Relisted(s, s.threads[t].pane));
    PutQuiet(m, t, NextOf(s.threads[t]));
    QuietTrans(s, m, DoReconcile(s, t));
  }

  lemma RearmIsQuiet(s: Node, t: nat)
    requires Shape(s) && t in s.threads && s.threads[t].Rearming?
    ensures QuietStep(s, DoRearmCheck(s, t))
  {
    PutQuiet(s, t, Arming({s.threads[t].pane}));
    EndQuiet(s, t);
  }

  lemma ReplayIsQuiet(s: Node, t: nat)
    requires Shape(s) && t in s.threads && s.threads[t].Replaying?
    ensures QuietStep(s, DoReplayWrite(s, t))
  {
    var p := s.threads[t].pane;
    var m := s.(held := s.held[p := s.threads[t].ids]);
    PutQuiet(m, t, Arming({p}));
    QuietTrans(s, m, DoReplayWrite(s, t));
  }

  lemma IsQuiet(s: Node, ev: Event)
    requires Shape(s) && Enabled(s, ev) && QuietEvent(ev)
    ensures QuietStep(s, Apply(s, ev))
  {
    if RegisterEvent(ev) {
      RegisterIsQuiet(s, ev);
    } else if ev.Arm? {
      ArmIsQuiet(s, ev.t, ev.pane);
    } else if ev.WakeUp? {
      PutQuiet(s, ev.t, Woken(s.threads[ev.t].pane, false));
    } else {
      EndQuiet(s, ev.t);
    }
  }

  /** Taking rows changes no table, and no thread but its own. */
  predicate TookStep(s: Node, s': Node, t: nat) {
    TablesSame(s, s') && s'.inflight <= s.inflight + s.store.Keys && s'.edited <= s.edited &&
    s'.threads.Keys <= s.threads.Keys && forall u | u in s.threads && u != t :: u in s'.threads && s'.threads[u] == s.threads[u]
  }

  lemma TookItems(s: Node, t: nat, items: map<EventId, Row>, held: map<Pane, set<EventId>>, always: bool)
    requires t in s.threads && s.threads[t].Woken? && items.Keys <= s.store.Keys
    ensures TookStep(s, Take(s, t, items, held, always), t)
  {
  }

  lemma TookNothing(s: Node, t: nat, p: Pane)
    requires t in s.threads
    ensures TookStep(s, End(s, t), t) && TookStep(s, Put(s, t, Arming({p})), t)
  {
  }

  lemma WorkingStored(s: Node, p: Pane, expired: bool)
    ensures WorkingItems(s, p, expired).Keys <= s.store.Keys
  {
  }

  lemma WorkingCases(s: Node, t: nat, expired: bool)
    requires t in s.threads && s.threads[t].Woken?
    ensures var p := s.threads[t].pane; var s' := DoTakeWorking(s, t, expired);
      s' == End(s, t) || s' == Put(s, t, Arming({p})) ||
      s' == Take(s, t, WorkingItems(s, p, expired), WorkingHeld(s, p, expired), true)
  {
  }

  lemma TookAll(s: Node, t: nat)
    requires t in s.threads && s.threads[t].Woken?
    ensures TookStep(s, DoTakeAll(s, t), t)
  {
    var p := s.threads[t].pane;
    TookItems(s, t, Snapshot(s, p), s.held - {p}, false);
    assert TookStep(s, End(s, t), t);
  }

  lemma TookWorking(s: Node, t: nat, expired: bool)
    requires t in s.threads && s.threads[t].Woken?
    ensures TookStep(s, DoTakeWorking(s, t, expired), t)
  {
    var p := s.threads[t].pane;
    WorkingStored(s, p, expired);
    TookItems(s, t, WorkingItems(s, p, expired), WorkingHeld(s, p, expired), true);
    TookNothing(s, t, p);
    WorkingCases(s, t, expired);
  }

  predicate TakeEvent(ev: Event) { ev.TakeAll? || ev.TakeWorking? }

  lemma Took(s: Node, ev: Event)
    requires Enabled(s, ev) && TakeEvent(ev)
    ensures TookStep(s, Apply(s, ev), ev.t)
  {
    match ev
    case TakeAll(t) => TookAll(s, t);
    case TakeWorking(t, expired) => TookWorking(s, t, expired);
  }

  // ---------------------------------------------------------------- steps of one release, and of one event

  predicate DeliveryEvent(ev: Event) {
    (UntypedEvent(ev) && !ev.RearmRetry?) || (InjectEvent(ev) && !ev.Finish?) || SettleEvent(ev)
  }

  lemma UntypedIsDelivery(s: Node, ev: Event)
    requires Shape(s) && Enabled(s, ev) && UntypedEvent(ev) && !ev.RearmRetry?
    ensures DeliveryStep(s, Apply(s, ev), ev.t)
  {
    match ev
    case DropRow(t, e) => DropRowFrame(s, t, e, LeaseEnded);
    case LeaveRow(t, e) => LeaveRowFrame(s, t, e);
    case Unverifiable(t, e) =>
      if s.threads[t].items[e].attempts + 1 >= MAX_ATTEMPTS { DropRowFrame(s, t, e, Exhausted); } else { HoldAgainFrame(s, t, e); }
    case Reinsert(t) => ReinsertFrame(s, t);
  }

  lemma InjectIsDelivery(s: Node, ev: Event)
    requires Shape(s) && Enabled(s, ev) && InjectEvent(ev) && !ev.Finish?
    ensures DeliveryStep(s, Apply(s, ev), ev.t)
  {
    match ev
    case TypeGroup(t, g) => TypeGroupFrame(s, t, g);
    case TypeAgain(t) => TypeAgainFrame(s, t);
    case Judge(t, v) => JudgeFrame(s, t, v);
  }

  lemma SettleIsDelivery(s: Node, ev: Event)
    requires Shape(s) && Enabled(s, ev) && SettleEvent(ev)
    ensures DeliveryStep(s, Apply(s, ev), ev.t)
  {
    match ev
    case SettleDrop(t, e) => SettleDropFrame(s, t, e);
    case SettleRecord(t, e) => SettleRecordFrame(s, t, e);
    case SettleDelete(t) => SettleDeleteFrame(s, t);
    case SettleRetry(t, e) => SettleRetryFrame(s, t, e);
  }

  lemma IsDelivery(s: Node, ev: Event)
    requires Shape(s) && Enabled(s, ev) && DeliveryEvent(ev)
    ensures DeliveryStep(s, Apply(s, ev), ev.t)
  {
    if UntypedEvent(ev) {
      UntypedIsDelivery(s, ev);
    } else if InjectEvent(ev) {
      InjectIsDelivery(s, ev);
    } else {
      SettleIsDelivery(s, ev);
    }
  }

  /** The event an offer, an edit or a cancel is about. */
  function Subject(ev: Event): EventId
    requires OfferEvent(ev)
  {
    if ev.Edit? || ev.Cancel? then ev.eid else ev.row.eid
  }

  lemma IsEvent(s: Node, ev: Event)
    requires Core(s) && Enabled(s, ev) && OfferEvent(ev)
    ensures EventStep(s, Apply(s, ev), Subject(ev))
  {
    if ev.Edit? || ev.Cancel? {
      assert RowShape(s.seen, ev.eid, s.store[ev.eid]);
      CommandIsEvent(s, ev);
    } else {
      FreshRow(s, ev.row);
      OfferIsEvent(s, ev);
    }
  }

  lemma CommandIsEvent(s: Node, ev: Event)
    requires Shape(s) && Enabled(s, ev) && (ev.Edit? || ev.Cancel?) && ev.eid in s.seen && ev.eid !in s.acks
    ensures EventStep(s, Apply(s, ev), ev.eid)
  {
    if ev.Edit? { EditStep(s, ev.eid, ev.text); } else { CancelStep(s, ev.eid); }
  }

  lemma OfferIsEvent(s: Node, ev: Event)
    requires WaitsShape(s) && Enabled(s, ev) && (ev.OfferHold? || ev.OfferRetry? || ev.OfferTyped?)
    requires ev.row.eid !in s.acks && ev.row.eid !in s.store && forall t :: !Owner(s, t, ev.row.eid)
    ensures EventStep(s, Apply(s, ev), ev.row.eid)
  {
    match ev
    case OfferHold(row) => HoldFrame(s, row, 0);
    case OfferRetry(row) => HoldFrame(s, row, 1);
    case OfferTyped(row, shots, landed) => TypedEvent(s, row, shots, landed);
  }

  /** An arm touches nothing but waits and threads. */
  lemma ArmFrame(s: Node, p: Pane)
    ensures var s' := ArmPane(s, p); s' == s.(threads := s'.threads, waits := s'.waits, next := s'.next)
  {
    var m := StopWait(s, p);
    assert m == s.(threads := m.threads, waits := m.waits);
    var n := StartWait(m, p);
    assert n == m.(threads := n.threads, waits := n.waits, next := n.next);
  }

  lemma UntypedStore(s: Node, ev: Event, e: EventId)
    requires Enabled(s, ev) && UntypedEvent(ev) && e in s.store && !Removes(s, ev, e)
    ensures e in Apply(s, ev).store
  {
    match ev
    case DropRow(t, x) => assert e in DoDropRow(s, t, x, LeaseEnded).store;
    case LeaveRow(t, x) => assert e in DoLeaveRow(s, t, x).store;
    case Unverifiable(t, x) => assert e in DoDropRow(s, t, x, Exhausted).store && e in DoHoldAgain(s, t, x).store;
    case Reinsert(t) => assert e in DoReinsert(s, t).store;
    case RearmRetry(t) => RearmFrame(s, t);
  }

  lemma SettleStore(s: Node, ev: Event, e: EventId)
    requires Enabled(s, ev) && SettleEvent(ev) && e in s.store && !Removes(s, ev, e)
    ensures e in Apply(s, ev).store
  {
  }

  lemma InjectStore(s: Node, ev: Event, e: EventId)
    requires Enabled(s, ev) && InjectEvent(ev) && e in s.store
    ensures e in Apply(s, ev).store
  {
  }

  lemma OfferStore(s: Node, ev: Event, e: EventId)
    requires Enabled(s, ev) && OfferEvent(ev) && e in s.store && !Removes(s, ev, e)
    ensures e in Apply(s, ev).store
  {
  }

  lemma RestartStore(s: Node, ev: Event, e: EventId)
    requires Enabled(s, ev) && RestartEvent(ev) && e in s.store && !Removes(s, ev, e)
    ensures e in Apply(s, ev).store
  {
  }

  lemma StoreStays(s: Node, ev: Event, e: EventId)
    requires Shape(s) && Enabled(s, ev) && e in s.store && !Removes(s, ev, e)
    ensures e in Apply(s, ev).store
  {
    if UntypedEvent(ev) {
      UntypedStore(s, ev, e);
    } else if SettleEvent(ev) {
      SettleStore(s, ev, e);
    } else if InjectEvent(ev) {
      InjectStore(s, ev, e);
    } else if TakeEvent(ev) {
      Took(s, ev);
    } else if QuietEvent(ev) {
      IsQuiet(s, ev);
    } else if OfferEvent(ev) {
      OfferStore(s, ev, e);
    } else {
      RestartStore(s, ev, e);
    }
  }

  // ---------------------------------------------------------------- a release that holds a row again

  /** Thread t is untouched by the step. */
  predicate Untouched(s: Node, s': Node, t: nat) {
    t in s.threads && t in s'.threads && s.threads[t] == s'.threads[t]
  }

  lemma ArmUntouched(s: Node, p: Pane, t: nat)
    requires WaitsShape(s) && IsDelivering(s, t)
    ensures Untouched(s, ArmPane(s, p), t)
  {
    assert Untouched(s, StopWait(s, p), t);
  }

  /** A release about to hold a row again does nothing else first. */
  lemma OnlyReinsert(s: Node, ev: Event, t: nat)
    requires Enabled(s, ev) && (DeliveryEvent(ev) || ev.RearmRetry? || ev.Finish?) && ev.t == t
    requires IsDelivering(s, t) && s.threads[t].phase.Rehold?
    ensures ev == Reinsert(t)
  {
  }

  lemma RearmRehold(s: Node, u: nat, t: nat)
    requires WaitsShape(s) && IsDelivering(s, u) && s.threads[u].phase.Rearm? && IsDelivering(s, t) && u != t
    ensures Untouched(s, DoRearmRetry(s, u), t)
  {
    var th := s.threads[u].(phase := Settling(s.threads[u].phase.group, s.threads[u].phase.verdict));
    assert IsDelivering(Put(s, u, th), t);
    ArmUntouched(Put(s, u, th), th.pane, t);
  }

  lemma FinishRehold(s: Node, u: nat, t: nat)
    requires IsDelivering(s, u) && IsDelivering(s, t) && u != t
    ensures Untouched(s, DoFinish(s, u), t)
  {
  }

  lemma ReleaseRehold(s: Node, ev: Event, t: nat)
    requires Shape(s) && Enabled(s, ev) && (DeliveryEvent(ev) || ev.RearmRetry? || ev.Finish?) && ev != Reinsert(t)
    requires IsDelivering(s, t) && s.threads[t].phase.Rehold?
    ensures Untouched(s, Apply(s, ev), t)
  {
    if ev.t == t { OnlyReinsert(s, ev, t); }
    if DeliveryEvent(ev) {
      IsDelivery(s, ev);
    } else if ev.RearmRetry? {
      RearmRehold(s, ev.t, t);
    } else {
      FinishRehold(s, ev.t, t);
    }
  }

  // ---------------------------------------------------------------- receipts only grow

  lemma RearmFrame(s: Node, t: nat)
    requires IsDelivering(s, t) && s.threads[t].phase.Rearm?
    ensures var s' := DoRearmRetry(s, t); s' == s.(threads := s'.threads, waits := s'.waits, next := s'.next)
  {
    var th := s.threads[t];
    var m := Put(s, t, th.(phase := Settling(th.phase.group, th.phase.verdict)));
    ArmFrame(m, th.pane);
  }

  lemma OfferReceipts(s: Node, ev: Event, e: EventId)
    requires Enabled(s, ev) && OfferEvent(ev) && e in s.delivered
    ensures e in Apply(s, ev).delivered
  {
  }

  lemma RestartReceipts(s: Node, ev: Event)
    requires Enabled(s, ev) && RestartEvent(ev)
    ensures Apply(s, ev).delivered == s.delivered && Apply(s, ev).edited == s.edited && Apply(s, ev).taken == s.taken
  {
    match ev
    case Crash =>
    case Restore =>
    case RestoreRow(e) => RestoreRowFrame(s, e);
    case RestoreAck =>
    case RestoreDone =>
  }

  lemma ReceiptStays(s: Node, ev: Event, e: EventId)
    requires Shape(s) && Enabled(s, ev) && e in s.delivered
    ensures e in Apply(s, ev).delivered
  {
    if DeliveryEvent(ev) {
      IsDelivery(s, ev);
    } else if ev.RearmRetry? {
      RearmFrame(s, ev.t);
    } else if ev.Finish? {
      assert DoFinish(s, ev.t).delivered == s.delivered;
    } else if TakeEvent(ev) {
      Took(s, ev);
    } else if QuietEvent(ev) {
      IsQuiet(s, ev);
    } else if OfferEvent(ev) {
      OfferReceipts(s, ev, e);
    } else {
      RestartReceipts(s, ev);
    }
  }

  // ---------------------------------------------------------------- no held row is lost

  /** Until it holds the row again, nothing but a crash touches such a release. */
  lemma ReholdUntouched(s: Node, ev: Event, t: nat)
    requires Core(s) && Enabled(s, ev) && !ev.Crash? && ev != Reinsert(t) && IsDelivering(s, t) && s.threads[t].phase.Rehold?
    ensures Untouched(s, Apply(s, ev), t)
  {
    if DeliveryEvent(ev) || ev.RearmRetry? || ev.Finish? {
      ReleaseRehold(s, ev, t);
    } else if TakeEvent(ev) {
      Took(s, ev);
    } else if QuietEvent(ev) {
      IsQuiet(s, ev);
    } else if OfferEvent(ev) {
      IsEvent(s, ev);
    } else {
      assert false;
    }
  }

  lemma ReinsertStores(s: Node, t: nat)
    requires IsDelivering(s, t) && s.threads[t].phase.Rehold?
    ensures s.threads[t].phase.row.eid in DoReinsert(s, t).store
  {
  }

  lemma ReholdStays(s: Node, ev: Event, t: nat, e: EventId)
    requires Core(s) && Enabled(s, ev) && !ev.Crash? && Reholding(s, t, e)
    ensures Kept(Apply(s, ev), e)
  {
    if ev == Reinsert(t) {
      ReinsertStores(s, t);
    } else {
      ReholdUntouched(s, ev, t);
      assert Reholding(Apply(s, ev), t, e);
    }
  }

  lemma HoldAgainKept(s: Node, t: nat, e: EventId)
    requires IdleRow(s, t, e) && s.threads[t].items[e].eid == e
    ensures Reholding(DoHoldAgain(s, t, e), t, e)
  {
  }

  lemma SettleRetryKept(s: Node, t: nat, e: EventId)
    requires JudgedRow(s, t, e) && s.threads[t].items[e].eid == e
    ensures Reholding(DoSettleRetry(s, t, e), t, e)
  {
  }

  lemma SettleDeleteKept(s: Node, t: nat)
    requires Shape(s) && Facts(s) && IsDelivering(s, t) && s.threads[t].phase.Recorded?
    ensures s.threads[t].phase.eid in DoSettleDelete(s, t).delivered
  {
    assert ThreadShape(s.seen, s.threads[t]);
    assert Owner(s, t, s.threads[t].phase.eid) && PlaceOf(s.threads[t], s.threads[t].phase.eid) == Noted;
  }

  lemma RestoreRowKept(s: Node, e: EventId)
    requires s.mode.Recovering? && e in s.store
    ensures e in DoRestoreRow(s, e).store || e in DoRestoreRow(s, e).delivered
  {
  }

  lemma RemovedKept(s: Node, ev: Event, e: EventId)
    requires Shape(s) && Facts(s) && Enabled(s, ev) && e in s.store && Removes(s, ev, e) && !DropsRow(s, ev, e)
    ensures Kept(Apply(s, ev), e)
  {
    match ev
    case Unverifiable(t, _) =>
      assert Owner(s, t, e);
      HoldAgainKept(s, t, e);
    case SettleRetry(t, _) =>
      assert Owner(s, t, e);
      SettleRetryKept(s, t, e);
    case SettleDelete(t) => SettleDeleteKept(s, t);
    case RestoreRow(_) => RestoreRowKept(s, e);
    case _ =>
  }

  lemma KeptStep(s: Node, ev: Event, e: EventId)
    requires Core(s) && Enabled(s, ev) && Kept(s, e) && !Discards(s, ev, e)
    ensures Kept(Apply(s, ev), e)
  {
    if e in s.delivered {
      ReceiptStays(s, ev, e);
    } else if e in s.store {
      if Removes(s, ev, e) { RemovedKept(s, ev, e); } else { StoreStays(s, ev, e); }
    } else {
      var t :| Reholding(s, t, e);
      ReholdStays(s, ev, t, e);
    }
  }

  lemma ReholdOwns(s: Node, t: nat, e: EventId)
    requires Shape(s) && Facts(s) && Reholding(s, t, e)
    ensures Owner(s, t, e) && e !in s.store
  {
    assert ThreadShape(s.seen, s.threads[t]);
    assert Owner(s, t, e) && PlaceOf(s.threads[t], e) == Lifted;
  }

  /** A release that ends row e leaves no other release about to hold it again. */
  lemma EndedHere(s: Node, s': Node, t: nat, e: EventId)
    requires Shape(s) && Facts(s) && Ownership(s) && Owner(s, t, e)
    requires IsDelivering(s', t) && s'.threads[t].phase.Settling? && s'.threads == s.threads[t := s'.threads[t]]
    requires e !in s'.store && e !in s'.delivered
    ensures !Kept(s', e)
  {
    forall u ensures !Reholding(s', u, e) {
      if Reholding(s', u, e) {
        ReholdOwns(s, u, e);
      }
    }
  }

  lemma CancelEnds(s: Node, e: EventId)
    requires Shape(s) && Facts(s) && e in s.store && e !in s.delivered
    ensures !Kept(DoCancel(s, e), e)
  {
    var s' := DoCancel(s, e);
    forall u ensures !Reholding(s', u, e) {
      if Reholding(s', u, e) {
        ReholdOwns(s, u, e);
      }
    }
  }

  lemma DroppedEnds(s: Node, ev: Event, e: EventId)
    requires Shape(s) && Facts(s) && Ownership(s) && Enabled(s, ev) && e !in s.delivered && DropsRow(s, ev, e)
    ensures !Kept(Apply(s, ev), e)
  {
    match ev
    case Cancel(_) => CancelEnds(s, e);
    case DropRow(t, _) => EndedHere(s, DoDropRow(s, t, e, LeaseEnded), t, e);
    case SettleDrop(t, _) => EndedHere(s, DoSettleDrop(s, t, e), t, e);
    case Unverifiable(t, _) => EndedHere(s, DoDropRow(s, t, e, Exhausted), t, e);
    case _ =>
  }

  lemma CrashEnds(s: Node, t: nat, e: EventId)
    requires Shape(s) && Facts(s) && e !in s.delivered && Reholding(s, t, e)
    ensures !Kept(DoCrash(s), e)
  {
    ReholdOwns(s, t, e);
  }

  /** A held row survives a step exactly when the step is not one of its reported ends, or a crash before it is held again. */
  lemma KeptExactly(s: Node, ev: Event, e: EventId)
    requires Core(s) && Enabled(s, ev) && Kept(s, e) && e !in s.delivered
    ensures Kept(Apply(s, ev), e) <==> !Discards(s, ev, e)
  {
    if !Discards(s, ev, e) {
      KeptStep(s, ev, e);
    } else if DropsRow(s, ev, e) {
      DroppedEnds(s, ev, e);
    } else {
      var t :| Reholding(s, t, e);
      CrashEnds(s, t, e);
    }
  }

  ghost predicate NeverDiscarded(s: Node, evs: seq<Event>, e: EventId)
    requires Possible(s, evs)
    decreases |evs|
  {
    evs == [] || (!Discards(s, evs[0], e) && NeverDiscarded(Apply(s, evs[0]), evs[1..], e))
  }

  /** Over any run, a held row that no step reports as dropped or cancelled is still held, or recorded, or being held again. */
  lemma {:induction false} HeldRowKept(s: Node, evs: seq<Event>, e: EventId)
    requires Core(s) && Possible(s, evs) && Kept(s, e) && NeverDiscarded(s, evs, e)
    ensures Kept(Run(s, evs), e)
    decreases |evs|
  {
    if evs != [] {
      KeptStep(s, evs[0], e);
      Keep(s, evs[0], true);
      HeldRowKept(Apply(s, evs[0]), evs[1..], e);
    }
  }

}
