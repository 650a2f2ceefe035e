/** Which verdict gives a typed row which end, and that a row which may be in the pane is not typed again. */
module BusyRelaySettling {
  import opened BusyRelay
  import opened BusyRelayInvariants
  import opened BusyRelayProofs
  import opened BusyRelayRuns
  import opened BusyRelayRestart
  import opened Options

  // ---------------------------------------------------------------- one verdict, one end

  lemma RetryWhen(s: Node, t: nat, e: EventId)
    requires JudgedRow(s, t, e)
    ensures var v, row := s.threads[t].phase.verdict, s.threads[t].items[e];
      Enabled(s, SettleRetry(t, e)) <==> v.Retryable? && !row.directive && row.attempts + 1 < v.maxAttempts
  {
  }

  lemma RecordWhen(s: Node, t: nat, e: EventId)
    requires JudgedRow(s, t, e)
    ensures var v := s.threads[t].phase.verdict; Enabled(s, SettleRecord(t, e)) <==> v.Landed? && e in v.proven
  {
  }

  lemma DropWhen(s: Node, t: nat, e: EventId)
    requires JudgedRow(s, t, e) && s.threads[t].items[e].eid == e
    ensures var v, row := s.threads[t].phase.verdict, s.threads[t].items[e];
      Enabled(s, SettleDrop(t, e)) <==>
        v.MaybeInPane? || (v.Landed? && e !in v.proven) || (v.Retryable? && (row.directive || row.attempts + 1 >= v.maxAttempts))
  {
  }

  lemma JudgedEid(s: Node, t: nat, e: EventId)
    requires Shape(s) && JudgedRow(s, t, e)
    ensures s.threads[t].items[e].eid == e
  {
    assert ThreadShape(s.seen, s.threads[t]) && RowShape(s.seen, e, s.threads[t].items[e]);
  }

  /** Of the three ends a typed row can have, its verdict leaves exactly one. */
  lemma SettlesExactly(apply: bool, evs: seq<Event>, t: nat, e: EventId)
    requires Possible(Init(apply), evs) && JudgedRow(Run(Init(apply), evs), t, e)
    ensures var s := Run(Init(apply), evs); var v, row := s.threads[t].phase.verdict, s.threads[t].items[e];
      (Enabled(s, SettleRetry(t, e)) <==> v.Retryable? && !row.directive && row.attempts + 1 < v.maxAttempts) &&
      (Enabled(s, SettleRecord(t, e)) <==> v.Landed? && e in v.proven) &&
      (Enabled(s, SettleDrop(t, e)) <==>
         v.MaybeInPane? || (v.Landed? && e !in v.proven) ||
         (v.Retryable? && (row.directive || row.attempts + 1 >= v.maxAttempts)))
  {
    ReachableCore(apply, evs);
    var s := Run(Init(apply), evs);
    JudgedEid(s, t, e);
    RetryWhen(s, t, e);
    RecordWhen(s, t, e);
    DropWhen(s, t, e);
  }

  /** A drop takes the row out of the store without a record, and is reported as unproven unless the inject was rejected. */
  lemma DropEnds(s: Node, t: nat, e: EventId)
    requires Enabled(s, SettleDrop(t, e))
    ensures var s' := Apply(s, SettleDrop(t, e)); var th := s'.threads[t];
      e !in s'.store && s'.delivered == s.delivered && e !in th.todo && e in th.fates &&
      th.fates[e] == Dropped(if s.threads[t].phase.verdict.Retryable? then Exhausted else Unproven)
  {
  }

  /** A rejected row is stored again by its own release, as it was taken and one attempt older. */
  lemma RetryEnds(apply: bool, evs: seq<Event>, t: nat, e: EventId)
    requires Possible(Init(apply), evs) && Enabled(Run(Init(apply), evs), SettleRetry(t, e))
    ensures var s := Run(Init(apply), evs); var s' := DoSettleRetry(s, t, e); var row := s.threads[t].items[e];
      e !in s'.store && Enabled(s', Reinsert(t)) &&
      e in DoReinsert(s', t).store && DoReinsert(s', t).store[e] == row.(attempts := row.attempts + 1)
  {
    ReachableCore(apply, evs);
    var s := Run(Init(apply), evs);
    RetryReady(s, t, e);
    RetriedRow(s, t, e);
  }

  lemma RetryReady(s: Node, t: nat, e: EventId)
    requires Shape(s) && Enabled(s, SettleRetry(t, e))
    ensures JudgedRow(s, t, e) && s.threads[t].items[e].eid == e && Enabled(DoSettleRetry(s, t, e), Reinsert(t))
  {
    JudgedEid(s, t, e);
  }

  lemma RetriedRow(s: Node, t: nat, e: EventId)
    requires JudgedRow(s, t, e) && s.threads[t].items[e].eid == e
    ensures var s' := DoSettleRetry(s, t, e); var row := s.threads[t].items[e];
      IsDelivering(s', t) && s'.threads[t].phase.Rehold? && e !in s'.store &&
      e in DoReinsert(s', t).store && DoReinsert(s', t).store[e] == row.(attempts := row.attempts + 1)
  {
  }

  /** A landed row is recorded with the pane and the text its release took, unless a record of it was there. */
  lemma RecordEnds(s: Node, t: nat, e: EventId)
    requires Enabled(s, SettleRecord(t, e))
    ensures var s' := Apply(s, SettleRecord(t, e)); var row := s.threads[t].items[e];
      e in s'.delivered && s'.store == s.store && Enabled(s', SettleDelete(t)) && e !in Apply(s', SettleDelete(t)).store &&
      s'.delivered[e] == (if e in s.delivered then s.delivered[e] else Receipt(row.pane, row.text))
  {
  }

  /** An inject is repeated at once exactly when it went out once and its rows are directives. */
  lemma RetypesExactly(apply: bool, evs: seq<Event>, t: nat, e: EventId)
    requires Possible(Init(apply), evs)
    requires var s := Run(Init(apply), evs); IsDelivering(s, t) && s.threads[t].phase.Typed? && e in s.threads[t].phase.group
    ensures e in Run(Init(apply), evs).threads[t].items
    ensures var s := Run(Init(apply), evs);
      (Enabled(s, TypeAgain(t)) <==> s.threads[t].phase.shots == 1 && s.threads[t].items[e].directive)
  {
    ReachableCore(apply, evs);
    RetypesWhen(Run(Init(apply), evs), t, e);
  }

  lemma RetypesWhen(s: Node, t: nat, e: EventId)
    requires Shape(s) && IsDelivering(s, t) && s.threads[t].phase.Typed? && e in s.threads[t].phase.group
    ensures e in s.threads[t].items
    ensures Enabled(s, TypeAgain(t)) <==> s.threads[t].phase.shots == 1 && s.threads[t].items[e].directive
  {
    var th := s.threads[t];
    assert ThreadShape(s.seen, th);
    GroupKind(th, e);
    assert Enabled(s, TypeAgain(t)) <==> CanTypeAgain(th);
  }

  lemma GroupKind(th: Thread, e: EventId)
    requires th.Delivering? && th.phase.Typed? && Uniform(th.items, th.phase.group) && e in th.phase.group
    ensures e in th.items && (CanTypeAgain(th) <==> th.phase.shots == 1 && th.items[e].directive)
  {
  }

  // ---------------------------------------------------------------- how an offer ends

  /** A fresh row typed at once ends there: recorded exactly when it landed, with its own pane and text, and never stored. */
  lemma TypedOfferEnds(apply: bool, evs: seq<Event>, row: Row, shots: nat, landed: bool)
    requires Possible(Init(apply), evs) && Enabled(Run(Init(apply), evs), OfferTyped(row, shots, landed))
    ensures var s' := Apply(Run(Init(apply), evs), OfferTyped(row, shots, landed)); var e := row.eid;
      e !in s'.store && Count(s'.typed, e) == shots && 1 <= shots <= (if row.directive then 2 else 1) &&
      (e in s'.delivered <==> landed) && (landed ==> s'.delivered[e] == Receipt(row.pane, row.text))
  {
    ReachableCore(apply, evs);
    var s := Run(Init(apply), evs);
    assert row.eid !in s.seen;
    assert row.eid in s.store ==> RowShape(s.seen, row.eid, s.store[row.eid]);
    TypedOffer(s, row, shots, landed);
  }

  lemma TypedOffer(s: Node, row: Row, shots: nat, landed: bool)
    ensures var s' := DoOfferTyped(s, row, shots, landed);
      s'.store == s.store && Count(s'.typed, row.eid) == shots &&
      s'.delivered == (if landed then s.delivered[row.eid := Receipt(row.pane, row.text)] else s.delivered)
  {
  }

  /** A fresh row for a busy pane is stored as it came, listed for its pane, and the pane is owed an arm. */
  lemma HeldOfferEnds(apply: bool, evs: seq<Event>, row: Row)
    requires Possible(Init(apply), evs) && Enabled(Run(Init(apply), evs), OfferHold(row))
    ensures var s := Run(Init(apply), evs); var s' := DoOfferHold(s, row, 0);
      row.eid in s'.store && s'.store[row.eid] == row && row.eid in HeldAt(s', row.pane) && Count(s'.typed, row.eid) == 0 &&
      s.next in s'.threads && s'.threads[s.next] == Arming({row.pane})
  {
    ReachableCore(apply, evs);
    var s := Run(Init(apply), evs);
    assert row.eid !in s.seen;
    assert row.eid in s.store ==> RowShape(s.seen, row.eid, s.store[row.eid]);
  }

  /** A row whose first inject was rejected is held the same way, as one typed once and one attempt old; never a directive. */
  lemma RejectedOfferEnds(apply: bool, evs: seq<Event>, row: Row)
    requires Possible(Init(apply), evs) && Enabled(Run(Init(apply), evs), OfferRetry(row))
    ensures var s' := DoOfferHold(Run(Init(apply), evs), row, 1);
      row.eid in s'.store && s'.store[row.eid] == row && row.eid in HeldAt(s', row.pane) && Count(s'.typed, row.eid) == 1 &&
      row.attempts == 1 && !row.directive
  {
    ReachableCore(apply, evs);
    var s := Run(Init(apply), evs);
    assert row.eid !in s.seen;
    assert row.eid in s.store ==> RowShape(s.seen, row.eid, s.store[row.eid]);
  }

  // ---------------------------------------------------------------- who types a row

  /** The inject of this step holds the row. */
  predicate Types(s: Node, ev: Event, e: EventId) {
    (ev.TypeGroup? && e in ev.group) ||
    (ev.TypeAgain? && IsDelivering(s, ev.t) && e in s.threads[ev.t].phase.group)
  }

  lemma OfferTypes(s: Node, ev: Event, e: EventId)
    requires Core(s) && Enabled(s, ev) && OfferEvent(ev) && e in s.seen
    ensures Count(Apply(s, ev).typed, e) == Count(s.typed, e)
  {
    IsEvent(s, ev);
    if ev.Edit? {
      assert DoEdit(s, ev.eid, ev.text).typed == s.typed;
    } else if ev.Cancel? {
      assert DoCancel(s, ev.eid).typed == s.typed;
    } else {
      assert ev.row.eid != e;
      assert SameRow(s, Apply(s, ev), e);
    }
  }

  lemma InjectTypes(s: Node, ev: Event, e: EventId)
    requires Enabled(s, ev) && InjectEvent(ev) && !ev.Finish? && !Types(s, ev, e)
    ensures Count(Apply(s, ev).typed, e) == Count(s.typed, e)
  {
  }

  lemma SettleTypes(s: Node, ev: Event)
    requires Enabled(s, ev) && SettleEvent(ev)
    ensures Apply(s, ev).typed == s.typed
  {
  }

  lemma UntypedTypes(s: Node, ev: Event)
    requires Enabled(s, ev) && UntypedEvent(ev) && !ev.RearmRetry?
    ensures Apply(s, ev).typed == s.typed
  {
    if ev.Unverifiable? {
      assert DoDropRow(s, ev.t, ev.eid, Exhausted).typed == s.typed && DoHoldAgain(s, ev.t, ev.eid).typed == s.typed;
    } else if ev.Reinsert? {
      assert DoReinsert(s, ev.t).typed == s.typed;
    }
  }

  lemma ReleaseTypes(s: Node, ev: Event, e: EventId)
    requires Enabled(s, ev) && DeliveryEvent(ev) && !Types(s, ev, e)
    ensures Count(Apply(s, ev).typed, e) == Count(s.typed, e)
  {
    if UntypedEvent(ev) {
      UntypedTypes(s, ev);
    } else if InjectEvent(ev) {
      InjectTypes(s, ev, e);
    } else {
      SettleTypes(s, ev);
    }
  }

  /** Nothing but an inject that holds the row adds to how often it was typed. */
  lemma TypedByInject(s: Node, ev: Event, e: EventId)
    requires Core(s) && Enabled(s, ev) && e in s.seen && !Types(s, ev, e)
    ensures Count(Apply(s, ev).typed, e) == Count(s.typed, e)
  {
    if OfferEvent(ev) {
      OfferTypes(s, ev, e);
    } else if DeliveryEvent(ev) {
      ReleaseTypes(s, ev, e);
    } else if TakeEvent(ev) {
      Took(s, ev);
    } else if QuietEvent(ev) {
      IsQuiet(s, ev);
    } else {
      TypedElse(s, ev);
    }
  }

  lemma TypedElse(s: Node, ev: Event)
    requires Enabled(s, ev) && (ev.RearmRetry? || ev.Finish? || RestartEvent(ev))
    ensures Apply(s, ev).typed == s.typed
  {
    if ev.RearmRetry? {
      RearmFrame(s, ev.t);
    } else if ev.Finish? {
      FinishTypes(s, ev.t);
    } else {
      RestartTypes(s, ev);
    }
  }

  lemma FinishTypes(s: Node, t: nat)
    requires IsDelivering(s, t)
    ensures DoFinish(s, t).typed == s.typed
  {
  }

  lemma RestartTypes(s: Node, ev: Event)
    requires Enabled(s, ev) && RestartEvent(ev)
    ensures Apply(s, ev).typed == s.typed
  {
    if ev.RestoreRow? { RestoreRowFrame(s, ev.eid); }
  }

  // ---------------------------------------------------------------- a row that may be in the pane

  /** The last inject of the row may have reached the pane, and that is still to be settled. */
  predicate Doubted(s: Node, t: nat, e: EventId) {
    JudgedRow(s, t, e) && s.threads[t].phase.verdict.MaybeInPane?
  }

  /** The release is done with the row, and the row is not stored. */
  predicate Over(s: Node, t: nat, e: EventId) {
    Owner(s, t, e) && e !in s.threads[t].todo && e !in s.store
  }

  /** Every row an inject types is one its release owns and still has to settle. */
  lemma TypedOwned(s: Node, ev: Event, e: EventId)
    requires Shape(s) && Enabled(s, ev) && Types(s, ev, e)
    ensures Owner(s, ev.t, e) && e in s.threads[ev.t].todo && (ev.TypeGroup? ==> Between(s, ev.t))
    ensures ev.TypeAgain? ==> s.threads[ev.t].phase.Typed?
  {
    assert ThreadShape(s.seen, s.threads[ev.t]);
  }

  lemma NotTyped(s: Node, ev: Event, t: nat, e: EventId)
    requires Shape(s) && Ownership(s) && Enabled(s, ev) && (Doubted(s, t, e) || Over(s, t, e) || Gone(s, e))
    ensures !Types(s, ev, e)
  {
    if Types(s, ev, e) {
      TypedOwned(s, ev, e);
      assert Owner(s, ev.t, e) && e in s.inflight;
      assert Owner(s, t, e);
      assert false;
    }
  }

  /** A step of a release, its end included. */
  predicate ReleaseEvent(ev: Event) { DeliveryEvent(ev) || ev.RearmRetry? || ev.Finish? }

  /** A release with a doubted row only drops rows. */
  lemma OnlyDrops(s: Node, ev: Event, t: nat, e: EventId)
    requires Doubted(s, t, e) && Enabled(s, ev) && ReleaseEvent(ev) && ev.t == t
    ensures ev.SettleDrop?
  {
    if !SettleEvent(ev) {
      OnlySettles(s, ev, t, e);
    } else if !ev.SettleDrop? {
      OnlySettleDrop(s, ev, t, e);
    }
  }

  lemma OnlySettles(s: Node, ev: Event, t: nat, e: EventId)
    requires Doubted(s, t, e) && (UntypedEvent(ev) || InjectEvent(ev)) && ev.t == t
    ensures !Enabled(s, ev)
  {
  }

  lemma OnlySettleDrop(s: Node, ev: Event, t: nat, e: EventId)
    requires Doubted(s, t, e) && SettleEvent(ev) && ev.t == t && !ev.SettleDrop?
    ensures !Enabled(s, ev)
  {
  }

  lemma DropDoubted(s: Node, t: nat, x: EventId, e: EventId)
    requires Doubted(s, t, e) && Enabled(s, SettleDrop(t, x))
    ensures var s' := Apply(s, SettleDrop(t, x)); if x == e then Over(s', t, e) else Doubted(s', t, e)
  {
  }

  lemma DeliveryElsewhere(s: Node, ev: Event, t: nat, e: EventId)
    requires Shape(s) && Ownership(s) && Enabled(s, ev) && DeliveryEvent(ev) && Owner(s, t, e) && ev.t != t
    ensures Untouched(s, Apply(s, ev), t) && (e !in s.store ==> e !in Apply(s, ev).store)
  {
    IsDelivery(s, ev);
    assert !Owner(s, ev.t, e);
    StepElsewhere(s, Apply(s, ev), ev.t, t, e);
  }

  lemma StepElsewhere(s: Node, s': Node, u: nat, t: nat, e: EventId)
    requires DeliveryStep(s, s', u) && Owner(s, t, e) && !Owner(s, u, e)
    ensures Untouched(s, s', t) && (e !in s.store ==> e !in s'.store)
  {
    assert SameRow(s, s', e);
  }

  /** A release other than that of the row leaves its thread and, once it is over, its absence from the store alone. */
  lemma ReleaseElsewhere(s: Node, ev: Event, t: nat, e: EventId)
    requires Shape(s) && Ownership(s) && Enabled(s, ev) && ReleaseEvent(ev)
    requires Owner(s, t, e) && ev.t != t
    ensures Untouched(s, Apply(s, ev), t) && (e !in s.store ==> e !in Apply(s, ev).store)
  {
    if DeliveryEvent(ev) {
      DeliveryElsewhere(s, ev, t, e);
    } else if ev.RearmRetry? {
      RearmRehold(s, ev.t, t);
      RearmFrame(s, ev.t);
    } else {
      FinishRehold(s, ev.t, t);
      FinishMode(s, ev.t);
    }
  }

  /** Offers, commands, waits and takes leave it alone too. */
  lemma OthersElsewhere(s: Node, ev: Event, t: nat, e: EventId)
    requires Core(s) && Enabled(s, ev) && Owner(s, t, e) && (OfferEvent(ev) || TakeEvent(ev) || QuietEvent(ev))
    ensures Untouched(s, Apply(s, ev), t) && (e !in s.store ==> e !in Apply(s, ev).store)
  {
    if OfferEvent(ev) {
      IsEvent(s, ev);
      OfferElsewhere(s, ev, t, e);
    } else if TakeEvent(ev) {
      TakeElsewhere(s, ev, t);
    } else {
      IsQuiet(s, ev);
      QuietElsewhere(s, Apply(s, ev), t);
    }
  }

  lemma TakeElsewhere(s: Node, ev: Event, t: nat)
    requires Enabled(s, ev) && TakeEvent(ev) && IsDelivering(s, t)
    ensures Untouched(s, Apply(s, ev), t) && Apply(s, ev).store == s.store
  {
    Took(s, ev);
    assert ev.t != t;
  }

  lemma QuietElsewhere(s: Node, s': Node, t: nat)
    requires QuietStep(s, s') && IsDelivering(s, t)
    ensures Untouched(s, s', t) && s'.store == s.store
  {
  }

  lemma OfferElsewhere(s: Node, ev: Event, t: nat, e: EventId)
    requires Shape(s) && Enabled(s, ev) && OfferEvent(ev) && EventStep(s, Apply(s, ev), Subject(ev)) && Owner(s, t, e)
    ensures Untouched(s, Apply(s, ev), t) && (e !in s.store ==> e !in Apply(s, ev).store)
  {
    assert ThreadShape(s.seen, s.threads[t]) && RowShape(s.seen, e, s.threads[t].items[e]);
    if e !in s.store {
      assert Subject(ev) != e;
      assert SameRow(s, Apply(s, ev), e);
    }
  }

  lemma DoubtInRelease(s: Node, ev: Event, t: nat, e: EventId)
    requires Shape(s) && Ownership(s) && Enabled(s, ev) && ReleaseEvent(ev) && Doubted(s, t, e)
    ensures Doubted(Apply(s, ev), t, e) || Over(Apply(s, ev), t, e)
  {
    if ev.t == t {
      OnlyDrops(s, ev, t, e);
      DropDoubted(s, t, ev.eid, e);
    } else {
      ReleaseElsewhere(s, ev, t, e);
    }
  }

  /** While a release is at work the node runs, so of the restart steps only a crash can come. */
  lemma NoRestart(s: Node, ev: Event, t: nat)
    requires Shape(s) && Enabled(s, ev) && IsDelivering(s, t)
    ensures RestartEvent(ev) ==> ev.Crash?
  {
  }

  /** A doubted row stays so until it is dropped, or the node crashes. */
  lemma DoubtStep(s: Node, ev: Event, t: nat, e: EventId)
    requires Core(s) && Enabled(s, ev) && Doubted(s, t, e) && !ev.Crash?
    ensures Doubted(Apply(s, ev), t, e) || Over(Apply(s, ev), t, e)
  {
    if ReleaseEvent(ev) {
      DoubtInRelease(s, ev, t, e);
    } else {
      NoRestart(s, ev, t);
      OthersElsewhere(s, ev, t, e);
    }
  }

  /** A row that is over stays over in its release, and is gone once that ends. */
  lemma OverStep(s: Node, ev: Event, t: nat, e: EventId)
    requires Core(s) && Enabled(s, ev) && Over(s, t, e)
    ensures Over(Apply(s, ev), t, e) || Gone(Apply(s, ev), e)
  {
    if ReleaseEvent(ev) { OverInRelease(s, ev, t, e); } else { OverOutside(s, ev, t, e); }
  }

  lemma OverOutside(s: Node, ev: Event, t: nat, e: EventId)
    requires Core(s) && Enabled(s, ev) && Over(s, t, e) && !ReleaseEvent(ev)
    ensures Over(Apply(s, ev), t, e) || Gone(Apply(s, ev), e)
  {
    if ev.Crash? {
      OverCrash(s, t, e);
    } else {
      NoRestart(s, ev, t);
      OthersElsewhere(s, ev, t, e);
      SameOver(s, Apply(s, ev), t, e);
    }
  }

  lemma OverCrash(s: Node, t: nat, e: EventId)
    requires Shape(s) && Over(s, t, e)
    ensures Enabled(s, Crash) && Gone(Apply(s, Crash), e)
  {
    SeenOwner(s, t, e);
    assert Apply(s, Crash) == DoCrash(s);
  }

  lemma OverInRelease(s: Node, ev: Event, t: nat, e: EventId)
    requires Shape(s) && Ownership(s) && Enabled(s, ev) && ReleaseEvent(ev) && Over(s, t, e)
    ensures Over(Apply(s, ev), t, e) || Gone(Apply(s, ev), e)
  {
    if ev.t != t {
      ReleaseElsewhere(s, ev, t, e);
      SameOver(s, Apply(s, ev), t, e);
    } else {
      OverInOwn(s, ev, t, e);
    }
  }

  lemma SameOver(s: Node, s': Node, t: nat, e: EventId)
    requires Over(s, t, e) && Untouched(s, s', t) && e !in s'.store
    ensures Over(s', t, e)
  {
  }

  lemma OverInOwn(s: Node, ev: Event, t: nat, e: EventId)
    requires Shape(s) && Enabled(s, ev) && ReleaseEvent(ev) && ev.t == t && Over(s, t, e)
    ensures Over(Apply(s, ev), t, e) || Gone(Apply(s, ev), e)
  {
    if ev.RearmRetry? {
      assert ev == RearmRetry(t);
      OverRearm(s, t, e);
    } else if ev.Finish? {
      assert ev == Finish(t);
      OverFinish(s, t, e);
    } else {
      OverInDelivery(s, ev, t, e);
    }
  }

  lemma OverRearm(s: Node, t: nat, e: EventId)
    requires WaitsShape(s) && Over(s, t, e) && Enabled(s, RearmRetry(t))
    ensures Over(Apply(s, RearmRetry(t)), t, e)
  {
    assert s.threads[t].phase.Rearm? && Apply(s, RearmRetry(t)) == DoRearmRetry(s, t);
    RearmFrame(s, t);
    RearmTodo(s, t);
  }

  lemma OverInDelivery(s: Node, ev: Event, t: nat, e: EventId)
    requires Shape(s) && Enabled(s, ev) && DeliveryEvent(ev) && ev.t == t && Over(s, t, e)
    ensures Over(Apply(s, ev), t, e)
  {
    IsDelivery(s, ev);
    TodoShrinks(s, ev, t);
    OverStore(s, ev, t, e);
  }

  lemma OverFinish(s: Node, t: nat, e: EventId)
    requires Shape(s) && Over(s, t, e) && Enabled(s, Finish(t))
    ensures Gone(Apply(s, Finish(t)), e)
  {
    SeenOwner(s, t, e);
    assert Apply(s, Finish(t)) == DoFinish(s, t) && s.mode.Running?;
    GoneFreed(s, t, e);
  }

  lemma GoneFreed(s: Node, t: nat, e: EventId)
    requires s.mode.Running? && Over(s, t, e) && e in s.seen
    ensures Gone(DoFinish(s, t), e)
  {
  }

  lemma RearmTodo(s: Node, t: nat)
    requires WaitsShape(s) && IsDelivering(s, t) && s.threads[t].phase.Rearm?
    ensures var s' := DoRearmRetry(s, t);
      IsDelivering(s', t) && s'.threads[t].todo == s.threads[t].todo && s'.threads[t].items == s.threads[t].items
  {
    var th := s.threads[t].(phase := Settling(s.threads[t].phase.group, s.threads[t].phase.verdict));
    assert IsDelivering(Put(s, t, th), t);
    ArmUntouched(Put(s, t, th), th.pane, t);
  }

  lemma TodoShrinks(s: Node, ev: Event, t: nat)
    requires Enabled(s, ev) && DeliveryEvent(ev) && ev.t == t && DeliveryStep(s, Apply(s, ev), t)
    ensures Apply(s, ev).threads[t].todo <= s.threads[t].todo
  {
    if SettleEvent(ev) {
      SettleTodo(s, ev, t);
    } else if InjectEvent(ev) {
      InjectTodo(s, ev, t);
    } else {
      UntypedTodo(s, ev, t);
    }
  }

  lemma InjectTodo(s: Node, ev: Event, t: nat)
    requires Enabled(s, ev) && InjectEvent(ev) && !ev.Finish? && ev.t == t
    ensures t in Apply(s, ev).threads && Apply(s, ev).threads[t].Delivering? && Apply(s, ev).threads[t].todo == s.threads[t].todo
  {
  }

  lemma UntypedTodo(s: Node, ev: Event, t: nat)
    requires Enabled(s, ev) && UntypedEvent(ev) && !ev.RearmRetry? && ev.t == t && IsDelivering(Apply(s, ev), t)
    ensures Apply(s, ev).threads[t].todo <= s.threads[t].todo
  {
    if ev.Unverifiable? {
      UnverifiableTodo(s, t, ev.eid);
    } else if ev.Reinsert? {
      ReinsertTodo(s, t);
    }
  }

  lemma UnverifiableTodo(s: Node, t: nat, e: EventId)
    requires IdleRow(s, t, e)
    ensures IsDelivering(DoUnverifiable(s, t, e), t) && DoUnverifiable(s, t, e).threads[t].todo <= s.threads[t].todo
  {
    assert DoDropRow(s, t, e, Exhausted).threads[t].todo <= s.threads[t].todo;
    assert DoHoldAgain(s, t, e).threads[t].todo <= s.threads[t].todo;
  }

  lemma ReinsertTodo(s: Node, t: nat)
    requires IsDelivering(s, t) && s.threads[t].phase.Rehold?
    ensures IsDelivering(DoReinsert(s, t), t) && DoReinsert(s, t).threads[t].todo <= s.threads[t].todo
  {
  }

  lemma SettleTodo(s: Node, ev: Event, t: nat)
    requires Enabled(s, ev) && SettleEvent(ev) && ev.t == t
    ensures t in Apply(s, ev).threads && Apply(s, ev).threads[t].Delivering? && Apply(s, ev).threads[t].todo <= s.threads[t].todo
  {
  }

  lemma OverStore(s: Node, ev: Event, t: nat, e: EventId)
    requires Shape(s) && Enabled(s, ev) && DeliveryEvent(ev) && ev.t == t && Over(s, t, e)
    ensures e !in Apply(s, ev).store
  {
    assert ThreadShape(s.seen, s.threads[t]);
    if ev.Reinsert? { ReinsertOnly(s, t, e); } else { DeliveryNoNew(s, ev); }
  }

  // ---------------------------------------------------------------- over whole runs

  /** No crash comes while the row is doubted. */
  ghost predicate Uncut(s: Node, evs: seq<Event>, t: nat, e: EventId)
    requires Possible(s, evs)
    decreases |evs|
  {
    evs == [] || (!(evs[0].Crash? && Doubted(s, t, e)) && Uncut(Apply(s, evs[0]), evs[1..], t, e))
  }

  ghost predicate Finished(s: Node, t: nat, e: EventId) { Over(s, t, e) || Gone(s, e) }

  lemma SeenOwner(s: Node, t: nat, e: EventId)
    requires Shape(s) && Owner(s, t, e)
    ensures e in s.seen
  {
    assert ThreadShape(s.seen, s.threads[t]) && RowShape(s.seen, e, s.threads[t].items[e]);
  }

  lemma {:induction false} FinishedForGood(s: Node, evs: seq<Event>, t: nat, e: EventId)
    requires Core(s) && Possible(s, evs) && Finished(s, t, e)
    ensures Finished(Run(s, evs), t, e) && Count(Run(s, evs).typed, e) == Count(s.typed, e)
    decreases |evs|
  {
    if evs != [] {
      if Over(s, t, e) {
        SeenOwner(s, t, e);
        OverStep(s, evs[0], t, e);
      } else {
        GoneStep(s, evs[0], e);
      }
      NotTyped(s, evs[0], t, e);
      TypedByInject(s, evs[0], e);
      Keep(s, evs[0], true);
      FinishedForGood(Apply(s, evs[0]), evs[1..], t, e);
    }
  }

  lemma {:induction false} DoubtedOrFinished(s: Node, evs: seq<Event>, t: nat, e: EventId)
    requires Core(s) && Possible(s, evs) && Doubted(s, t, e) && Uncut(s, evs, t, e)
    ensures Doubted(Run(s, evs), t, e) || Finished(Run(s, evs), t, e)
    ensures Count(Run(s, evs).typed, e) == Count(s.typed, e)
    decreases |evs|
  {
    if evs != [] {
      SeenOwner(s, t, e);
      DoubtStep(s, evs[0], t, e);
      NotTyped(s, evs[0], t, e);
      TypedByInject(s, evs[0], e);
      Keep(s, evs[0], true);
      if Doubted(Apply(s, evs[0]), t, e) {
        DoubtedOrFinished(Apply(s, evs[0]), evs[1..], t, e);
      } else {
        FinishedForGood(Apply(s, evs[0]), evs[1..], t, e);
      }
    }
  }

  /**
   * A row whose inject may have reached the pane is never typed again, and is in no group a release
   * may type, unless a crash comes before the row is settled.
   */
  lemma MaybeTypedOnce(apply: bool, before: seq<Event>, evs: seq<Event>, t: nat, e: EventId, u: nat, g: set<EventId>)
    requires Possible(Init(apply), before) && Possible(Run(Init(apply), before), evs)
    requires var s := Run(Init(apply), before);
      JudgedRow(s, t, e) && s.threads[t].phase.verdict == MaybeInPane && Uncut(s, evs, t, e)
    ensures var s := Run(Init(apply), before); var s' := Run(s, evs);
      Count(s'.typed, e) == Count(s.typed, e) && (Enabled(s', TypeGroup(u, g)) ==> e !in g)
  {
    ReachableCore(apply, before);
    var s := Run(Init(apply), before);
    DoubtedOrFinished(s, evs, t, e);
    RunInv(s, evs);
    if Enabled(Run(s, evs), TypeGroup(u, g)) { NotTyped(Run(s, evs), TypeGroup(u, g), t, e); }
  }
}
