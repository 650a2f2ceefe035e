/** A row whose pane nothing wakes for stays that way until somebody outside the relay acts on the pane. */
module BusyRelayStranding {
  import opened BusyRelay
  import opened BusyRelayInvariants
  import opened BusyRelayProofs
  import opened BusyRelayRuns

  /** The thread will neither take rows of the pane nor list them again. */
  predicate Useless(th: Thread, p: Pane) {
    match th
    case Wait(q, c) => q != p || c
    case Woken(q, _) => q != p
    case Delivering(q, _, _, _, _, _) => q != p
    case Reconciling(q, _) => q != p
    case Rearming(_) => true
    case Arming(_) => true
    case Resending(q) => q != p
    case Replaying(q, _) => q != p
  }

  /** Nothing is listed for the pane, and every thread is useless to it. */
  predicate Hopeless(s: Node, p: Pane) {
    s.mode.Running? && HeldAt(s, p) == {} && forall t | t in s.threads :: Useless(s.threads[t], p)
  }

  /** Row e is stored for the pane, in no delivery, and the pane is hopeless. */
  predicate Stranded(s: Node, p: Pane, e: EventId) {
    Hopeless(s, p) && Loose(s, e) && s.store[e].pane == p
  }

  /** Somebody outside acts on the pane: a hold or a resend there, a cancel of the row, or a restart. */
  predicate Outside(s: Node, ev: Event, p: Pane, e: EventId) {
    match ev
    case OfferHold(row) => row.pane == p
    case OfferRetry(row) => row.pane == p
    case Replay(x) => x in s.store && s.store[x].pane == p
    case Cancel(x) => x == e
    case Crash => true
    case _ => false
  }

  // ---------------------------------------------------------------- one step

  /** Threads that come or change are useless, and lists of other panes do not matter. */
  lemma StrandedQuiet(s: Node, s': Node, p: Pane, e: EventId)
    requires Stranded(s, p, e) && s' == s.(held := s'.held, waits := s'.waits, threads := s'.threads, next := s'.next)
    requires HeldAt(s', p) == {}
    requires forall t | t in s'.threads :: (t in s.threads && s'.threads[t] == s.threads[t]) || Useless(s'.threads[t], p)
    ensures Stranded(s', p, e)
  {
  }

  lemma StoppedUseless(s: Node, q: Pane, p: Pane, t: nat)
    requires t in s.threads && Useless(s.threads[t], p)
    ensures t in StopWait(s, q).threads && Useless(StopWait(s, q).threads[t], p)
  {
    StoppedThread(s, q, t);
  }

  lemma ArmStranded(s: Node, q: Pane, p: Pane, e: EventId)
    requires Stranded(s, p, e)
    ensures Stranded(ArmPane(s, q), p, e)
  {
    var m := StopWait(s, q);
    assert m == s.(threads := m.threads, waits := m.waits) && m.threads.Keys == s.threads.Keys;
    forall t | t in m.threads ensures Useless(m.threads[t], p) { StoppedUseless(s, q, p, t); }
    StrandedQuiet(s, m, p, e);
    if HeldAt(s, q) != {} {
      StrandedQuiet(m, StartWait(m, q), p, e);
    }
  }

  lemma WaitStranded(s: Node, ev: Event, p: Pane, e: EventId)
    requires Stranded(s, p, e) && Enabled(s, ev) && (ev.Arm? || ev.WakeUp? || ev.WaitDies?)
    ensures Stranded(Apply(s, ev), p, e)
  {
    match ev
    case Arm(t, q) =>
      var m := Put(s, t, Arming(s.threads[t].panes - {q}));
      StrandedQuiet(s, m, p, e);
      ArmStranded(m, q, p, e);
    case WakeUp(t) => StrandedQuiet(s, Put(s, t, Woken(s.threads[t].pane, false)), p, e);
    case WaitDies(t) => StrandedQuiet(s, End(s, t), p, e);
  }

  lemma RelistedElsewhere(s: Node, q: Pane, p: Pane)
    requires q != p
    ensures HeldAt(s.(held := Relisted(s, q)), p) == HeldAt(s, p)
  {
  }

  lemma ReconcileStranded(s: Node, t: nat, p: Pane, e: EventId)
    requires Stranded(s, p, e) && t in s.threads && s.threads[t].Reconciling?
    ensures Stranded(DoReconcile(s, t), p, e)
  {
    var m := s.(held := Relisted(s, s.threads[t].pane));
    RelistedElsewhere(s, s.threads[t].pane, p);
    StrandedQuiet(s, m, p, e);
    StrandedQuiet(m, Put(m, t, NextOf(s.threads[t])), p, e);
  }

  lemma RearmStranded(s: Node, t: nat, p: Pane, e: EventId)
    requires Stranded(s, p, e) && t in s.threads && s.threads[t].Rearming?
    ensures Stranded(DoRearmCheck(s, t), p, e)
  {
    StrandedQuiet(s, Put(s, t, Arming({s.threads[t].pane})), p, e);
    StrandedQuiet(s, End(s, t), p, e);
  }

  lemma ReplayStranded(s: Node, ev: Event, p: Pane, e: EventId)
    requires Stranded(s, p, e) && Enabled(s, ev) && (ev.Replay? || ev.ReplayRead? || ev.ReplayWrite?) && !Outside(s, ev, p, e)
    ensures Stranded(Apply(s, ev), p, e)
  {
    match ev
    case Replay(x) => StrandedQuiet(s, DoReplay(s, x), p, e);
    case ReplayRead(t) => StrandedQuiet(s, DoReplayRead(s, t), p, e);
    case ReplayWrite(t) => StrandedQuiet(s, DoReplayWrite(s, t), p, e);
  }

  lemma RegisterStranded(s: Node, ev: Event, p: Pane, e: EventId)
    requires Stranded(s, p, e) && Enabled(s, ev) && RegisterEvent(ev) && !Outside(s, ev, p, e)
    ensures Stranded(Apply(s, ev), p, e)
  {
    if ev.Reconcile? {
      ReconcileStranded(s, ev.t, p, e);
    } else if ev.RearmCheck? {
      RearmStranded(s, ev.t, p, e);
    } else if ev.Resume? {
      StrandedQuiet(s, Spawn(s, Arming(s.held.Keys)), p, e);
    } else {
      ReplayStranded(s, ev, p, e);
    }
  }

  lemma TakeStranded(s: Node, t: nat, items: map<EventId, Row>, held: map<Pane, set<EventId>>, always: bool, p: Pane, e: EventId)
    requires Stranded(s, p, e) && TakeStep(s, t, items, held)
    ensures Stranded(Take(s, t, items, held, always), p, e)
  {
    var s' := Take(s, t, items, held, always);
    assert s.threads[t].pane != p && e !in items;
    assert HeldAt(s', p) == HeldAt(s.(held := held), p);
  }

  lemma NothingTaken(s: Node, t: nat, p: Pane, e: EventId)
    requires Stranded(s, p, e) && t in s.threads && s.threads[t].Woken?
    ensures Stranded(End(s, t), p, e) && Stranded(Put(s, t, Arming({s.threads[t].pane})), p, e)
  {
    StrandedQuiet(s, End(s, t), p, e);
    StrandedQuiet(s, Put(s, t, Arming({s.threads[t].pane})), p, e);
  }

  lemma TakeAllStranded(s: Node, t: nat, p: Pane, e: EventId)
    requires Stranded(s, p, e) && t in s.threads && s.threads[t].Woken?
    ensures Stranded(DoTakeAll(s, t), p, e)
  {
    var q := s.threads[t].pane;
    NothingTaken(s, t, p, e);
    TakeStranded(s, t, Snapshot(s, q), s.held - {q}, false, p, e);
  }

  lemma TakeWorkingStranded(s: Node, t: nat, expired: bool, p: Pane, e: EventId)
    requires Stranded(s, p, e) && t in s.threads && s.threads[t].Woken?
    ensures Stranded(DoTakeWorking(s, t, expired), p, e)
  {
    var q := s.threads[t].pane;
    NothingTaken(s, t, p, e);
    WorkingStep(s, t, expired);
    TakeStranded(s, t, WorkingItems(s, q, expired), WorkingHeld(s, q, expired), true, p, e);
    WorkingCases(s, t, expired);
  }

  lemma TakesStranded(s: Node, ev: Event, p: Pane, e: EventId)
    requires Stranded(s, p, e) && Enabled(s, ev) && TakeEvent(ev)
    ensures Stranded(Apply(s, ev), p, e)
  {
    if ev.TakeAll? { TakeAllStranded(s, ev.t, p, e); } else { TakeWorkingStranded(s, ev.t, ev.expired, p, e); }
  }

  lemma DeliveryStranded(s: Node, s': Node, t: nat, p: Pane, e: EventId)
    requires Stranded(s, p, e) && DeliveryStep(s, s', t) && !Owner(s, t, e)
    ensures Stranded(s', p, e)
  {
    assert SameRow(s, s', e) && s.threads[t].pane != p;
  }

  lemma RetryStranded(s: Node, t: nat, p: Pane, e: EventId)
    requires Stranded(s, p, e) && IsDelivering(s, t) && s.threads[t].phase.Rearm?
    ensures Stranded(DoRearmRetry(s, t), p, e)
  {
    var th := s.threads[t];
    var m := Put(s, t, th.(phase := Settling(th.phase.group, th.phase.verdict)));
    StrandedQuiet(s, m, p, e);
    ArmStranded(m, th.pane, p, e);
  }

  lemma FinishStranded(s: Node, t: nat, p: Pane, e: EventId)
    requires Stranded(s, p, e) && IsDelivering(s, t)
    ensures Stranded(DoFinish(s, t), p, e)
  {
  }

  lemma HoldStranded(s: Node, row: Row, typed: nat, p: Pane, e: EventId)
    requires Stranded(s, p, e) && row.pane != p && row.eid !in s.store
    ensures Stranded(DoOfferHold(s, row, typed), p, e)
  {
  }

  lemma CancelStranded(s: Node, x: EventId, p: Pane, e: EventId)
    requires Stranded(s, p, e) && x in s.store && x != e
    ensures Stranded(DoCancel(s, x), p, e)
  {
    assert HeldAt(DoCancel(s, x), p) == HeldAt(s, p) - {x};
  }

  lemma TypedStranded(s: Node, row: Row, shots: nat, landed: bool, p: Pane, e: EventId)
    requires Stranded(s, p, e)
    ensures Stranded(DoOfferTyped(s, row, shots, landed), p, e)
  {
  }

  lemma EditStranded(s: Node, x: EventId, text: string, p: Pane, e: EventId)
    requires Stranded(s, p, e) && x in s.store
    ensures Stranded(DoEdit(s, x, text), p, e)
  {
  }

  lemma OfferStranded(s: Node, ev: Event, p: Pane, e: EventId)
    requires Stranded(s, p, e) && Enabled(s, ev) && OfferEvent(ev) && !Outside(s, ev, p, e)
    requires forall x | x in s.store :: x in s.seen
    ensures Stranded(Apply(s, ev), p, e)
  {
    match ev
    case OfferHold(row) => HoldStranded(s, row, 0, p, e);
    case OfferRetry(row) => HoldStranded(s, row, 1, p, e);
    case OfferTyped(row, shots, landed) => TypedStranded(s, row, shots, landed, p, e);
    case Edit(x, text) => EditStranded(s, x, text, p, e);
    case Cancel(x) => CancelStranded(s, x, p, e);
  }

  lemma OwnStranded(s: Node, ev: Event, p: Pane, e: EventId)
    requires Shape(s) && Ownership(s) && Stranded(s, p, e) && Enabled(s, ev) && DeliveryEvent(ev)
    ensures Stranded(Apply(s, ev), p, e)
  {
    IsDelivery(s, ev);
    assert !Owner(s, ev.t, e);
    DeliveryStranded(s, Apply(s, ev), ev.t, p, e);
  }

  lemma StrandedStep(s: Node, ev: Event, p: Pane, e: EventId)
    requires Core(s) && Stranded(s, p, e) && Enabled(s, ev) && !Outside(s, ev, p, e)
    ensures Stranded(Apply(s, ev), p, e)
  {
    if OfferEvent(ev) {
      assert forall x | x in s.store :: RowShape(s.seen, x, s.store[x]);
      OfferStranded(s, ev, p, e);
    } else if DeliveryEvent(ev) {
      OwnStranded(s, ev, p, e);
    } else if TakeEvent(ev) {
      TakesStranded(s, ev, p, e);
    } else if RegisterEvent(ev) {
      RegisterStranded(s, ev, p, e);
    } else if ev.RearmRetry? {
      RetryStranded(s, ev.t, p, e);
    } else if ev.Finish? {
      FinishStranded(s, ev.t, p, e);
    } else {
      WaitStranded(s, ev, p, e);
    }
  }

  // ---------------------------------------------------------------- whole runs

  ghost predicate LeftAlone(s: Node, evs: seq<Event>, p: Pane, e: EventId)
    requires Possible(s, evs)
    decreases |evs|
  {
    evs == [] || (!Outside(s, evs[0], p, e) && LeftAlone(Apply(s, evs[0]), evs[1..], p, e))
  }

  /** Whatever the node does of its own accord, the row stays stored and nothing comes to wake for it. */
  lemma {:induction false} StrandedForGood(s: Node, evs: seq<Event>, p: Pane, e: EventId)
    requires Core(s) && Stranded(s, p, e) && Possible(s, evs) && LeftAlone(s, evs, p, e)
    ensures Stranded(Run(s, evs), p, e)
    decreases |evs|
  {
    if evs != [] {
      StrandedStep(s, evs[0], p, e);
      Keep(s, evs[0], true);
      StrandedForGood(Apply(s, evs[0]), evs[1..], p, e);
    }
  }

  // ---------------------------------------------------------------- runs that strand a row

  const PANE: Pane := "w1:p1"

  function Plain(e: EventId): Row { Row(e, PANE, "lane", "text", false, 0) }

  lemma {:induction false} ExtendSteady(s: Node, evs: seq<Event>, ev: Event, each: bool)
    requires Steady(s, evs, each) && Possible(s, evs) && Enabled(Run(s, evs), ev) && !Forgets(Run(s, evs), ev, each)
    ensures Steady(s, evs + [ev], each) && Possible(s, evs + [ev]) && Run(s, evs + [ev]) == Apply(Run(s, evs), ev)
    decreases |evs|
  {
    if evs == [] {
      assert (evs + [ev])[1..] == [];
    } else {
      ExtendSteady(Apply(s, evs[0]), evs[1..], ev, each);
      assert (evs + [ev])[1..] == evs[1..] + [ev];
    }
  }

  /** The node as far as the one pane goes; nothing is in flight. */
  datatype Scene = Scene(store: map<EventId, Row>, held: set<EventId>, waits: map<Pane, nat>, threads: map<nat, Thread>, next: nat)

  predicate Is(s: Node, x: Scene) {
    s.mode.Running? && s.store == x.store && s.held == map[PANE := x.held] && s.waits == x.waits && s.threads == x.threads &&
    s.next == x.next && s.inflight == {}
  }

  lemma HoldScene(s: Node, x: Scene, e: EventId, rows: set<EventId>)
    requires Is(s, x) && e !in s.seen && e !in x.store && rows == RowsAt(x.store[e := Plain(e)], PANE)
    ensures Enabled(s, OfferHold(Plain(e)))
    ensures Is(Apply(s, OfferHold(Plain(e))), Held(x, e, rows))
    ensures Apply(s, OfferHold(Plain(e))).seen.Keys == s.seen.Keys + {e}
  {
    assert Apply(s, OfferHold(Plain(e))) == DoOfferHold(s, Plain(e), 0);
    HeldScene(s, x, e, rows);
  }

  lemma HeldScene(s: Node, x: Scene, e: EventId, rows: set<EventId>)
    requires Is(s, x) && e !in x.store && rows == RowsAt(x.store[e := Plain(e)], PANE)
    ensures Is(DoOfferHold(s, Plain(e), 0), Held(x, e, rows))
    ensures DoOfferHold(s, Plain(e), 0).seen.Keys == s.seen.Keys + {e}
  {
  }

  /** The pane's list is empty: its wait stops. */
  lemma ArmEmptyScene(s: Node, x: Scene, t: nat, w: nat)
    requires Is(s, x) && t in x.threads && x.threads[t] == Arming({PANE}) && x.held == {} && t != w
    requires PANE in x.waits && x.waits[PANE] == w && w in x.threads && x.threads[w] == Wait(PANE, false)
    ensures Enabled(s, Arm(t, PANE))
    ensures Is(Apply(s, Arm(t, PANE)), Stopped(x, t, w))
    ensures Apply(s, Arm(t, PANE)).seen == s.seen
  {
    assert {PANE} - {PANE} == {};
    var m := Put(s, t, Arming({PANE} - {PANE}));
    assert HeldAt(m, PANE) == {};
  }

  /** A list with rows and no wait: one starts. */
  lemma ArmFirstScene(s: Node, x: Scene, t: nat)
    requires Is(s, x) && t in x.threads && x.threads[t] == Arming({PANE}) && x.held != {} && x.waits == map[]
    ensures Enabled(s, Arm(t, PANE))
    ensures Is(Apply(s, Arm(t, PANE)), Started(x, t))
    ensures Apply(s, Arm(t, PANE)).seen == s.seen
  {
    assert {PANE} - {PANE} == {};
    var m := Put(s, t, Arming({PANE} - {PANE}));
    assert HeldAt(m, PANE) == x.held;
    assert StopWait(m, PANE) == m;
  }

  /** A list with rows and a wait: another takes its place. */
  lemma ArmNextScene(s: Node, x: Scene, t: nat, w: nat)
    requires Is(s, x) && t in x.threads && x.threads[t] == Arming({PANE}) && x.held != {} && t != w
    requires x.waits == map[PANE := w] && w in x.threads && x.threads[w] == Wait(PANE, false)
    ensures Enabled(s, Arm(t, PANE))
    ensures Is(Apply(s, Arm(t, PANE)), Restarted(x, t, w))
    ensures Apply(s, Arm(t, PANE)).seen == s.seen
  {
    assert {PANE} - {PANE} == {};
    var m := Put(s, t, Arming({PANE} - {PANE}));
    assert HeldAt(m, PANE) == x.held;
    assert StopWait(m, PANE).threads == x.threads[t := Arming({})][w := Wait(PANE, true)];
  }

  lemma ReplayScene(s: Node, x: Scene, e: EventId)
    requires Is(s, x) && e in x.store && x.store[e].pane == PANE
    ensures Enabled(s, Replay(e))
    ensures Is(Apply(s, Replay(e)), x.(threads := x.threads[x.next := Resending(PANE)], next := x.next + 1))
    ensures Apply(s, Replay(e)).seen == s.seen
  {
  }

  lemma ReadScene(s: Node, x: Scene, t: nat)
    requires Is(s, x) && t in x.threads && x.threads[t] == Resending(PANE)
    ensures Enabled(s, ReplayRead(t))
    ensures Is(Apply(s, ReplayRead(t)), x.(threads := x.threads[t := Replaying(PANE, RowsAt(x.store, PANE))]))
    ensures Apply(s, ReplayRead(t)).seen == s.seen
  {
  }

  lemma WriteScene(s: Node, x: Scene, t: nat, ids: set<EventId>)
    requires Is(s, x) && t in x.threads && x.threads[t] == Replaying(PANE, ids)
    ensures Enabled(s, ReplayWrite(t))
    ensures Is(Apply(s, ReplayWrite(t)), x.(held := ids, threads := x.threads[t := Arming({PANE})]))
  {
  }

  lemma CancelScene(s: Node, x: Scene, e: EventId)
    requires Is(s, x) && e in x.store && e in x.held
    ensures Enabled(s, Cancel(e))
    ensures Is(Apply(s, Cancel(e)), Dropped(x, e))
    ensures Apply(s, Cancel(e)).seen == s.seen
  {
    assert (set p | p in s.held && e in s.held[p]) == {PANE};
    assert Without(s.held, e) == map[PANE := x.held - {e}];
  }

  function Held(x: Scene, e: EventId, rows: set<EventId>): Scene {
    Scene(x.store[e := Plain(e)], rows, x.waits, x.threads[x.next := Arming({PANE})], x.next + 1)
  }

  function Stopped(x: Scene, t: nat, w: nat): Scene {
    x.(waits := x.waits - {PANE}, threads := x.threads[t := Arming({})][w := Wait(PANE, true)])
  }

  function Started(x: Scene, t: nat): Scene {
    x.(waits := map[PANE := x.next], threads := x.threads[t := Arming({})][x.next := Wait(PANE, false)], next := x.next + 1)
  }

  function Restarted(x: Scene, t: nat, w: nat): Scene {
    x.(waits := map[PANE := x.next], next := x.next + 1,
       threads := x.threads[t := Arming({})][w := Wait(PANE, true)][x.next := Wait(PANE, false)])
  }

  function Dropped(x: Scene, e: EventId): Scene {
    Scene(x.store - {e}, x.held - {e}, x.waits, x.threads[x.next := Arming({PANE})], x.next + 1)
  }

  /** A steady run from s0 that ends in this scene, having seen these events. */
  ghost predicate Leads(s0: Node, evs: seq<Event>, x: Scene, seen: set<EventId>, each: bool) {
    Steady(s0, evs, each) && Possible(s0, evs) && Is(Run(s0, evs), x) && Run(s0, evs).seen.Keys == seen
  }

  /** One more step of such a run. */
  lemma Then(s0: Node, evs: seq<Event>, ev: Event, x: Scene, seen: set<EventId>, each: bool)
    requires Steady(s0, evs, each) && Possible(s0, evs) && Enabled(Run(s0, evs), ev) && !Forgets(Run(s0, evs), ev, each)
    requires Is(Apply(Run(s0, evs), ev), x) && Apply(Run(s0, evs), ev).seen.Keys == seen
    ensures Leads(s0, evs + [ev], x, seen, each)
  {
    ExtendSteady(s0, evs, ev, each);
  }

  lemma OnlyRow(s: Node, x: Scene, e: EventId)
    requires Is(s, x) && x.store.Keys == {e}
    ensures !Empties(s, e)
  {
  }

  lemma HoldOn(s0: Node, evs: seq<Event>, x: Scene, seen: set<EventId>, e: EventId, rows: set<EventId>, each: bool)
    returns (more: seq<Event>)
    requires Leads(s0, evs, x, seen, each) && e !in seen && e !in x.store && rows == RowsAt(x.store[e := Plain(e)], PANE)
    ensures more == evs + [OfferHold(Plain(e))]
    ensures Leads(s0, more, Held(x, e, rows), seen + {e}, each)
  {
    HoldScene(Run(s0, evs), x, e, rows);
    Then(s0, evs, OfferHold(Plain(e)), Held(x, e, rows), seen + {e}, each);
    more := evs + [OfferHold(Plain(e))];
  }

  lemma ArmEmptyOn(s0: Node, evs: seq<Event>, x: Scene, seen: set<EventId>, t: nat, w: nat, each: bool)
    returns (more: seq<Event>)
    requires Leads(s0, evs, x, seen, each)
    requires t in x.threads && x.threads[t] == Arming({PANE}) && x.held == {} && t != w
    requires PANE in x.waits && x.waits[PANE] == w && w in x.threads && x.threads[w] == Wait(PANE, false)
    ensures more == evs + [Arm(t, PANE)]
    ensures Leads(s0, more, Stopped(x, t, w), seen, each)
  {
    ArmEmptyScene(Run(s0, evs), x, t, w);
    Then(s0, evs, Arm(t, PANE), Stopped(x, t, w), seen, each);
    more := evs + [Arm(t, PANE)];
  }

  lemma ArmFirstOn(s0: Node, evs: seq<Event>, x: Scene, seen: set<EventId>, t: nat, each: bool)
    returns (more: seq<Event>)
    requires Leads(s0, evs, x, seen, each)
    requires t in x.threads && x.threads[t] == Arming({PANE}) && x.held != {} && x.waits == map[]
    ensures more == evs + [Arm(t, PANE)]
    ensures Leads(s0, more, Started(x, t), seen, each)
  {
    ArmFirstScene(Run(s0, evs), x, t);
    Then(s0, evs, Arm(t, PANE), Started(x, t), seen, each);
    more := evs + [Arm(t, PANE)];
  }

  lemma ArmNextOn(s0: Node, evs: seq<Event>, x: Scene, seen: set<EventId>, t: nat, w: nat, each: bool)
    returns (more: seq<Event>)
    requires Leads(s0, evs, x, seen, each)
    requires t in x.threads && x.threads[t] == Arming({PANE}) && x.held != {} && t != w
    requires x.waits == map[PANE := w] && w in x.threads && x.threads[w] == Wait(PANE, false)
    ensures more == evs + [Arm(t, PANE)]
    ensures Leads(s0, more, Restarted(x, t, w), seen, each)
  {
    ArmNextScene(Run(s0, evs), x, t, w);
    Then(s0, evs, Arm(t, PANE), Restarted(x, t, w), seen, each);
    more := evs + [Arm(t, PANE)];
  }

  lemma ReplayOn(s0: Node, evs: seq<Event>, x: Scene, seen: set<EventId>, e: EventId, each: bool)
    returns (more: seq<Event>)
    requires Leads(s0, evs, x, seen, each) && e in x.store && x.store[e].pane == PANE
    ensures more == evs + [Replay(e)]
    ensures Leads(s0, more, x.(threads := x.threads[x.next := Resending(PANE)], next := x.next + 1), seen, each)
  {
    ReplayScene(Run(s0, evs), x, e);
    Then(s0, evs, Replay(e), x.(threads := x.threads[x.next := Resending(PANE)], next := x.next + 1), seen, each);
    more := evs + [Replay(e)];
  }

  lemma ReadOn(s0: Node, evs: seq<Event>, x: Scene, seen: set<EventId>, t: nat, each: bool) returns (more: seq<Event>)
    requires Leads(s0, evs, x, seen, each) && t in x.threads && x.threads[t] == Resending(PANE)
    ensures more == evs + [ReplayRead(t)]
    ensures Leads(s0, more, x.(threads := x.threads[t := Replaying(PANE, RowsAt(x.store, PANE))]), seen, each)
  {
    ReadScene(Run(s0, evs), x, t);
    Then(s0, evs, ReplayRead(t), x.(threads := x.threads[t := Replaying(PANE, RowsAt(x.store, PANE))]), seen, each);
    more := evs + [ReplayRead(t)];
  }

  lemma WriteOn(s0: Node, evs: seq<Event>, x: Scene, seen: set<EventId>, t: nat, ids: set<EventId>, each: bool)
    returns (more: seq<Event>)
    requires Leads(s0, evs, x, seen, each) && t in x.threads && x.threads[t] == Replaying(PANE, ids) && ids != {} && !each
    ensures more == evs + [ReplayWrite(t)]
    ensures Leads(s0, more, x.(held := ids, threads := x.threads[t := Arming({PANE})]), seen, each)
  {
    WriteScene(Run(s0, evs), x, t, ids);
    Then(s0, evs, ReplayWrite(t), x.(held := ids, threads := x.threads[t := Arming({PANE})]), seen, each);
    more := evs + [ReplayWrite(t)];
  }

  lemma CancelOn(s0: Node, evs: seq<Event>, x: Scene, seen: set<EventId>, e: EventId, each: bool)
    returns (more: seq<Event>)
    requires Leads(s0, evs, x, seen, each) && e in x.held && x.store.Keys == {e}
    ensures more == evs + [Cancel(e)]
    ensures Leads(s0, more, Dropped(x, e), seen, each)
  {
    CancelScene(Run(s0, evs), x, e);
    OnlyRow(Run(s0, evs), x, e);
    Then(s0, evs, Cancel(e), Dropped(x, e), seen, each);
    more := evs + [Cancel(e)];
  }

  /** Row 1 held and waited for. */
  const HELD1: Scene := Scene(map[1 := Plain(1)], {1}, map[PANE := 1], map[0 := Arming({}), 1 := Wait(PANE, false)], 2)

  const HELD0: Scene := Scene(map[1 := Plain(1)], {1}, map[], map[0 := Arming({PANE})], 1)

  lemma HoldFirst(apply: bool)
    ensures Enabled(Init(apply), OfferHold(Plain(1)))
    ensures Is(Apply(Init(apply), OfferHold(Plain(1))), HELD0) && Apply(Init(apply), OfferHold(Plain(1))).seen.Keys == {1}
  {
    var s1 := DoOfferHold(Init(apply), Plain(1), 0);
    assert RowsAt(s1.store, PANE) == {1};
    assert Apply(Init(apply), OfferHold(Plain(1))) == s1;
  }

  lemma HeldFirst(apply: bool, each: bool) returns (evs: seq<Event>)
    ensures evs == [OfferHold(Plain(1)), Arm(0, PANE)] && Leads(Init(apply), evs, HELD1, {1}, each)
  {
    HoldFirst(apply);
    Then(Init(apply), [], OfferHold(Plain(1)), HELD0, {1}, each);
    evs := [] + [OfferHold(Plain(1))];
    evs := ArmFirstOn(Init(apply), evs, HELD0, {1}, 0, each);
    assert HELD0.threads[0 := Arming({})][1 := Wait(PANE, false)] == HELD1.threads;
  }

  const RESENT: Scene := HELD1.(threads := map[0 := Arming({}), 1 := Wait(PANE, false), 2 := Resending(PANE)], next := 3)

  const CANCELLED: Scene := Scene(map[], {}, map[],
    map[0 := Arming({}), 1 := Wait(PANE, true), 2 := Resending(PANE), 3 := Arming({})], 4)

  /** Row 2 is held and waited for, and an older reading of its pane, without rows, is about to be registered. */
  const OVERTAKEN: Scene := Scene(map[2 := Plain(2)], {2}, map[PANE := 5],
    map[0 := Arming({}), 1 := Wait(PANE, true), 2 := Replaying(PANE, {}), 3 := Arming({}), 4 := Arming({}), 5 := Wait(PANE, false)], 6)

  lemma ResendFirst(s0: Node, evs: seq<Event>, each: bool) returns (more: seq<Event>)
    requires Leads(s0, evs, HELD1, {1}, each)
    ensures more == evs + [Replay(1)] && Leads(s0, more, RESENT, {1}, each)
  {
    more := ReplayOn(s0, evs, HELD1, {1}, 1, each);
    assert HELD1.threads[2 := Resending(PANE)] == RESENT.threads;
  }

  const DROPPED: Scene := Scene(map[], {}, map[PANE := 1], RESENT.threads[3 := Arming({PANE})], 4)

  lemma CancelFirst(s0: Node, evs: seq<Event>, each: bool) returns (more: seq<Event>)
    requires Leads(s0, evs, RESENT, {1}, each)
    ensures more == evs + [Cancel(1)] && Leads(s0, more, DROPPED, {1}, each)
  {
    more := CancelOn(s0, evs, RESENT, {1}, 1, each);
    assert RESENT.store - {1} == map[] && RESENT.held - {1} == {};
  }

  lemma CancelledThreads()
    ensures DROPPED.waits - {PANE} == map[] && DROPPED.threads[3 := Arming({})][1 := Wait(PANE, true)] == CANCELLED.threads
  {
  }

  lemma StopFirst(s0: Node, evs: seq<Event>, each: bool) returns (more: seq<Event>)
    requires Leads(s0, evs, DROPPED, {1}, each)
    ensures more == evs + [Arm(3, PANE)] && Leads(s0, more, CANCELLED, {1}, each)
  {
    more := ArmEmptyOn(s0, evs, DROPPED, {1}, 3, 1, each);
    CancelledThreads();
  }

  const READ: Scene := CANCELLED.(threads := CANCELLED.threads[2 := Replaying(PANE, {})])

  const HELD2: Scene := Scene(map[2 := Plain(2)], {2}, map[], READ.threads[4 := Arming({PANE})], 5)

  lemma ReadEmpty(s0: Node, evs: seq<Event>, each: bool) returns (more: seq<Event>)
    requires Leads(s0, evs, CANCELLED, {1}, each)
    ensures more == evs + [ReplayRead(2)] && Leads(s0, more, READ, {1}, each)
  {
    more := ReadOn(s0, evs, CANCELLED, {1}, 2, each);
    assert RowsAt(map[], PANE) == {};
  }

  lemma HoldMeanwhile(s0: Node, evs: seq<Event>, each: bool) returns (more: seq<Event>)
    requires Leads(s0, evs, READ, {1}, each)
    ensures more == evs + [OfferHold(Plain(2))] && Leads(s0, more, HELD2, {1, 2}, each)
  {
    assert map[][2 := Plain(2)] == map[2 := Plain(2)] && RowsAt(map[2 := Plain(2)], PANE) == {2};
    more := HoldOn(s0, evs, READ, {1}, 2, {2}, each);
    assert {1} + {2} == {1, 2};
  }

  lemma OvertakenThreads()
    ensures HELD2.threads[4 := Arming({})][5 := Wait(PANE, false)] == OVERTAKEN.threads
  {
  }

  lemma ArmMeanwhile(s0: Node, evs: seq<Event>, each: bool) returns (more: seq<Event>)
    requires Leads(s0, evs, HELD2, {1, 2}, each)
    ensures more == evs + [Arm(4, PANE)] && Leads(s0, more, OVERTAKEN, {1, 2}, each)
  {
    more := ArmFirstOn(s0, evs, HELD2, {1, 2}, 4, each);
    OvertakenThreads();
  }

  /** A steady run that gets there: row 1 is held, resent and cancelled, its resend reads the pane, and row 2 is held. */
  lemma OvertakenReached(apply: bool, each: bool) returns (evs: seq<Event>)
    ensures evs == [OfferHold(Plain(1)), Arm(0, PANE)] + [Replay(1)] + [Cancel(1)] + [Arm(3, PANE)] + [ReplayRead(2)] +
                   [OfferHold(Plain(2))] + [Arm(4, PANE)]
    ensures Leads(Init(apply), evs, OVERTAKEN, {1, 2}, each)
  {
    evs := HeldFirst(apply, each);
    evs := ResendFirst(Init(apply), evs, each);
    evs := CancelFirst(Init(apply), evs, each);
    evs := StopFirst(Init(apply), evs, each);
    evs := ReadEmpty(Init(apply), evs, each);
    evs := HoldMeanwhile(Init(apply), evs, each);
    evs := ArmMeanwhile(Init(apply), evs, each);
  }

  /** Every thread but the registered wait w is useless to the pane. */
  predicate OnlyWait(x: Scene, w: nat) {
    x.waits == map[PANE := w] && w in x.threads && x.threads[w] == Wait(PANE, false) &&
    forall u | u in x.threads && u != w :: Useless(x.threads[u], PANE)
  }

  lemma EmptyStrands(s: Node, x: Scene, t: nat, w: nat, e: EventId)
    requires Is(s, x) && t in x.threads && x.threads[t] == Arming({PANE}) && x.held == {} && t != w && OnlyWait(x, w)
    requires e in x.store && x.store[e].pane == PANE
    ensures Enabled(s, Arm(t, PANE)) && Stranded(Apply(s, Arm(t, PANE)), PANE, e)
  {
    ArmEmptyScene(s, x, t, w);
    StrandedScene(Apply(s, Arm(t, PANE)), Stopped(x, t, w), e);
  }

  lemma StrandedScene(s: Node, x: Scene, e: EventId)
    requires Is(s, x) && x.held == {} && e in x.store && x.store[e].pane == PANE
    requires forall u | u in x.threads :: Useless(x.threads[u], PANE)
    ensures Stranded(s, PANE, e)
  {
  }

  /** An empty reading, registered and armed while the registered wait is all the pane has, strands its rows. */
  lemma WriteStrands(s: Node, x: Scene, t: nat, w: nat, e: EventId)
    requires Is(s, x) && t in x.threads && x.threads[t] == Replaying(PANE, {}) && t != w
    requires OnlyWait(x.(threads := x.threads[t := Arming({PANE})]), w) && e in x.store && x.store[e].pane == PANE
    ensures Enabled(s, ReplayWrite(t)) && Enabled(Apply(s, ReplayWrite(t)), Arm(t, PANE))
    ensures Stranded(Apply(Apply(s, ReplayWrite(t)), Arm(t, PANE)), PANE, e)
  {
    WriteScene(s, x, t, {});
    EmptyStrands(Apply(s, ReplayWrite(t)), x.(held := {}, threads := x.threads[t := Arming({PANE})]), t, w, e);
  }

  /** So does a cancel of the one row the list names. */
  lemma CancelStrands(s: Node, x: Scene, c: EventId, w: nat, e: EventId)
    requires Is(s, x) && c in x.store && x.held == {c} && w != x.next && OnlyWait(x, w)
    requires e != c && e in x.store && x.store[e].pane == PANE
    ensures Enabled(s, Cancel(c)) && Enabled(Apply(s, Cancel(c)), Arm(x.next, PANE))
    ensures Stranded(Apply(Apply(s, Cancel(c)), Arm(x.next, PANE)), PANE, e)
  {
    CancelScene(s, x, c);
    assert x.held - {c} == {};
    EmptyStrands(Apply(s, Cancel(c)), Dropped(x, c), x.next, w, e);
  }

  lemma NoReconciler(s: Node, x: Scene)
    requires Is(s, x) && forall u | u in x.threads :: !x.threads[u].Delivering? && !x.threads[u].Reconciling?
    ensures forall u :: !ReconciledBy(s, u, PANE)
  {
  }

  lemma OvertakenForgets(s: Node, each: bool)
    requires Is(s, OVERTAKEN)
    ensures Forgets(s, ReplayWrite(2), each)
  {
    NoReconciler(s, OVERTAKEN);
    assert Loose(s, 2);
  }

  /** Registering and arming that reading strands row 2. */
  lemma OvertakenStrands(s: Node, each: bool)
    requires Is(s, OVERTAKEN)
    ensures Enabled(s, ReplayWrite(2)) && Forgets(s, ReplayWrite(2), each)
    ensures var s1 := Apply(s, ReplayWrite(2)); Enabled(s1, Arm(2, PANE)) && Stranded(Apply(s1, Arm(2, PANE)), PANE, 2)
  {
    OvertakenForgets(s, each);
    assert OnlyWait(OVERTAKEN.(threads := OVERTAKEN.threads[2 := Arming({PANE})]), 5);
    WriteStrands(s, OVERTAKEN, 2, 5, 2);
  }

  // ---------------------------------------------------------------- a reading that names some rows

  const READ1: Scene := RESENT.(threads := RESENT.threads[2 := Replaying(PANE, {1})])

  const BOTH: Scene := Scene(map[1 := Plain(1), 2 := Plain(2)], {1, 2}, map[PANE := 4],
    map[0 := Arming({}), 1 := Wait(PANE, true), 2 := Replaying(PANE, {1}), 3 := Arming({}), 4 := Wait(PANE, false)], 5)

  /** Rows 1 and 2 are held behind a live wait, and the pane's list names row 1 only. */
  const PARTIAL: Scene := Scene(map[1 := Plain(1), 2 := Plain(2)], {1}, map[PANE := 5],
    map[0 := Arming({}), 1 := Wait(PANE, true), 2 := Arming({}), 3 := Arming({}), 4 := Wait(PANE, true), 5 := Wait(PANE, false)], 6)

  lemma ReadFirst(s0: Node, evs: seq<Event>, each: bool) returns (more: seq<Event>)
    requires Leads(s0, evs, RESENT, {1}, each)
    ensures more == evs + [ReplayRead(2)] && Leads(s0, more, READ1, {1}, each)
  {
    more := ReadOn(s0, evs, RESENT, {1}, 2, each);
    assert RowsAt(map[1 := Plain(1)], PANE) == {1};
  }

  const TWO: Scene := Scene(BOTH.store, {1, 2}, map[PANE := 1], READ1.threads[3 := Arming({PANE})], 4)

  lemma TwoRows()
    ensures READ1.store[2 := Plain(2)] == BOTH.store && RowsAt(BOTH.store, PANE) == {1, 2}
  {
    assert map[1 := Plain(1)][2 := Plain(2)] == BOTH.store;
  }

  lemma HoldSecond(s0: Node, evs: seq<Event>, each: bool) returns (more: seq<Event>)
    requires Leads(s0, evs, READ1, {1}, each)
    ensures more == evs + [OfferHold(Plain(2))] && Leads(s0, more, TWO, {1, 2}, each)
  {
    TwoRows();
    more := HoldOn(s0, evs, READ1, {1}, 2, {1, 2}, each);
    assert {1} + {2} == {1, 2};
  }

  lemma BothThreads()
    ensures TWO.threads[3 := Arming({})][1 := Wait(PANE, true)][4 := Wait(PANE, false)] == BOTH.threads
  {
  }

  lemma ArmSecond(s0: Node, evs: seq<Event>, each: bool) returns (more: seq<Event>)
    requires Leads(s0, evs, TWO, {1, 2}, each)
    ensures more == evs + [Arm(3, PANE)] && Leads(s0, more, BOTH, {1, 2}, each)
  {
    more := ArmNextOn(s0, evs, TWO, {1, 2}, 3, 1, each);
    BothThreads();
  }

  const WRITTEN: Scene := BOTH.(held := {1}, threads := BOTH.threads[2 := Arming({PANE})])

  lemma WriteOne(s0: Node, evs: seq<Event>) returns (more: seq<Event>)
    requires Leads(s0, evs, BOTH, {1, 2}, false)
    ensures more == evs + [ReplayWrite(2)] && Leads(s0, more, WRITTEN, {1, 2}, false)
  {
    more := WriteOn(s0, evs, BOTH, {1, 2}, 2, {1}, false);
  }

  lemma PartialThreads()
    ensures WRITTEN.threads[2 := Arming({})][4 := Wait(PANE, true)][5 := Wait(PANE, false)] == PARTIAL.threads
  {
  }

  lemma ArmOne(s0: Node, evs: seq<Event>) returns (more: seq<Event>)
    requires Leads(s0, evs, WRITTEN, {1, 2}, false)
    ensures more == evs + [Arm(2, PANE)] && Leads(s0, more, PARTIAL, {1, 2}, false)
  {
    more := ArmNextOn(s0, evs, WRITTEN, {1, 2}, 2, 4, false);
    PartialThreads();
  }

  /** A reading that names row 1 is registered after row 2 was held: the pane still wakes, and the list no longer names row 2. */
  lemma PartialReached(apply: bool) returns (evs: seq<Event>)
    ensures evs == [OfferHold(Plain(1)), Arm(0, PANE)] + [Replay(1)] + [ReplayRead(2)] + [OfferHold(Plain(2))] + [Arm(3, PANE)] +
                   [ReplayWrite(2)] + [Arm(2, PANE)]
    ensures Leads(Init(apply), evs, PARTIAL, {1, 2}, false)
  {
    evs := HeldFirst(apply, false);
    evs := ResendFirst(Init(apply), evs, false);
    evs := ReadFirst(Init(apply), evs, false);
    evs := HoldSecond(Init(apply), evs, false);
    evs := ArmSecond(Init(apply), evs, false);
    evs := WriteOne(Init(apply), evs);
    evs := ArmOne(Init(apply), evs);
  }

  /** Cancelling row 1 then strands row 2. */
  lemma PartialStrands(s: Node)
    requires Is(s, PARTIAL)
    ensures Enabled(s, Cancel(1)) && Forgets(s, Cancel(1), false)
    ensures var s1 := Apply(s, Cancel(1)); Enabled(s1, Arm(6, PANE)) && Stranded(Apply(s1, Arm(6, PANE)), PANE, 2)
  {
    NoReconciler(s, PARTIAL);
    assert Loose(s, 2);
    assert OnlyWait(PARTIAL, 5);
    CancelStrands(s, PARTIAL, 1, 5, 2);
  }
}
