/** Runs that show where the busy relay's guarantees end, and that its bounds are reached. */
module BusyRelayScenarios {
  import opened BusyRelay
  import opened BusyRelayInvariants
  import opened BusyRelayProofs
  import opened BusyRelayRuns
  import opened BusyRelayRestart
  import opened Options

  const PANE: Pane := "w1:p1"

  function Sample(directive: bool, attempts: nat): Row {
    Row(1, PANE, "lane", "text", directive, attempts)
  }

  lemma {:induction false} Extend(s: Node, evs: seq<Event>, ev: Event)
    requires Possible(s, evs) && Enabled(Run(s, evs), ev)
    ensures Possible(s, evs + [ev]) && Run(s, evs + [ev]) == Apply(Run(s, evs), ev)
    decreases |evs|
  {
    if evs == [] {
      assert (evs + [ev])[1..] == [];
    } else {
      Extend(Apply(s, evs[0]), evs[1..], ev);
      assert (evs + [ev])[1..] == evs[1..] + [ev];
    }
  }

  // ---------------------------------------------------------------- one row on its way to the pane

  /** Row 1 as it is stored, the receipts, and how often it was typed and cut off. */
  datatype World = World(apply: bool, receipts: map<EventId, Receipt>, row: Row, typed: nat, cut: nat)

  predicate Tables(s: Node, w: World) {
    s.applyDedupe == w.apply && s.store == map[1 := w.row] && s.delivered == w.receipts && w.row.eid == 1 && w.row.pane == PANE &&
    Count(s.typed, 1) == w.typed && Count(s.cut, 1) == w.cut
  }

  /** Thread n still owes the pane an arm. */
  predicate Armable(s: Node, n: nat, w: World) {
    s.mode.Running? && Tables(s, w) && s.inflight == {} && s.waits == map[] && s.threads == map[n := Arming({PANE})] &&
    s.next == n + 1 && s.held == map[PANE := {1}]
  }

  predicate Waiting(s: Node, n: nat, w: World, woken: bool) {
    s.mode.Running? && Tables(s, w) && s.inflight == {} && n in s.threads && n < s.next &&
    s.threads[n] == (if woken then Woken(PANE, false) else Wait(PANE, false))
  }

  /** The release of thread n took the row as `item`. */
  predicate Taken(s: Node, n: nat, w: World, item: Row, phase: Phase) {
    s.mode.Running? && Tables(s, w) && n in s.threads && n < s.next && s.inflight == {1} && item.pane == PANE && item.eid == 1 &&
    s.threads[n] == Delivering(PANE, map[1 := item], {1}, phase, map[], false)
  }

  const FREE: Phase := Settling({}, MaybeInPane)

  lemma HoldFirst(apply: bool, directive: bool)
    ensures var ev := OfferHold(Sample(directive, 0));
      Enabled(Init(apply), ev) && Armable(Apply(Init(apply), ev), 0, World(apply, map[], Sample(directive, 0), 0, 0))
  {
    var s' := DoOfferHold(Init(apply), Sample(directive, 0), 0);
    assert RowsAt(s'.store, PANE) == {1};
  }

  lemma ArmFirst(s: Node, n: nat, w: World)
    requires Armable(s, n, w)
    ensures Enabled(s, Arm(n, PANE)) && Waiting(Apply(s, Arm(n, PANE)), n + 1, w, false)
  {
    var m := Put(s, n, Arming({PANE} - {PANE}));
    assert HeldAt(m, PANE) == {1};
    assert StopWait(m, PANE).next == n + 1;
  }

  lemma WakeFirst(s: Node, n: nat, w: World)
    requires Waiting(s, n, w, false)
    ensures Enabled(s, WakeUp(n)) && Waiting(Apply(s, WakeUp(n)), n, w, true)
  {
  }

  lemma TakeFirst(s: Node, n: nat, w: World)
    requires Waiting(s, n, w, true)
    ensures Enabled(s, TakeAll(n)) && Taken(Apply(s, TakeAll(n)), n, w, w.row, FREE)
  {
    assert Snapshot(s, PANE) == map[1 := w.row];
    assert 1 in Snapshot(s, PANE).Keys;
  }

  lemma TypeFirst(s: Node, n: nat, w: World, item: Row)
    requires Taken(s, n, w, item, FREE)
    ensures Enabled(s, TypeGroup(n, {1})) && Taken(Apply(s, TypeGroup(n, {1})), n, w.(typed := w.typed + 1), item, Typed({1}, 1))
  {
  }

  lemma TypeSecond(s: Node, n: nat, w: World, item: Row)
    requires Taken(s, n, w, item, Typed({1}, 1)) && item.directive
    ensures Enabled(s, TypeAgain(n)) && Taken(Apply(s, TypeAgain(n)), n, w.(typed := w.typed + 1), item, Typed({1}, 2))
  {
  }

  lemma JudgeFirst(s: Node, n: nat, w: World, item: Row, v: Verdict)
    requires Taken(s, n, w, item, Typed({1}, 1)) && (v.Retryable? ==> 1 <= v.maxAttempts <= MAX_ATTEMPTS)
    ensures Enabled(s, Judge(n, v)) && Taken(Apply(s, Judge(n, v)), n, w, item, Settling({1}, v))
  {
  }

  lemma HoldIt(apply: bool, directive: bool) returns (evs: seq<Event>)
    ensures Possible(Init(apply), evs) && evs == [OfferHold(Sample(directive, 0))]
    ensures Armable(Run(Init(apply), evs), 0, World(apply, map[], Sample(directive, 0), 0, 0))
  {
    HoldFirst(apply, directive);
    Extend(Init(apply), [], OfferHold(Sample(directive, 0)));
    evs := [] + [OfferHold(Sample(directive, 0))];
  }

  lemma ArmOn(s0: Node, evs: seq<Event>, n: nat, w: World) returns (more: seq<Event>)
    requires Possible(s0, evs) && Armable(Run(s0, evs), n, w)
    ensures Possible(s0, more) && Waiting(Run(s0, more), n + 1, w, false) && more == evs + [Arm(n, PANE)]
  {
    ArmFirst(Run(s0, evs), n, w);
    Extend(s0, evs, Arm(n, PANE));
    more := evs + [Arm(n, PANE)];
  }

  lemma WakeOn(s0: Node, evs: seq<Event>, n: nat, w: World) returns (more: seq<Event>)
    requires Possible(s0, evs) && Waiting(Run(s0, evs), n, w, false)
    ensures Possible(s0, more) && Waiting(Run(s0, more), n, w, true) && more == evs + [WakeUp(n)]
  {
    WakeFirst(Run(s0, evs), n, w);
    Extend(s0, evs, WakeUp(n));
    more := evs + [WakeUp(n)];
  }

  lemma TakeOn(s0: Node, evs: seq<Event>, n: nat, w: World) returns (more: seq<Event>)
    requires Possible(s0, evs) && Waiting(Run(s0, evs), n, w, true)
    ensures Possible(s0, more) && Taken(Run(s0, more), n, w, w.row, FREE) && more == evs + [TakeAll(n)]
  {
    TakeFirst(Run(s0, evs), n, w);
    Extend(s0, evs, TakeAll(n));
    more := evs + [TakeAll(n)];
  }

  lemma TypeOn(s0: Node, evs: seq<Event>, n: nat, w: World, item: Row) returns (more: seq<Event>)
    requires Possible(s0, evs) && Taken(Run(s0, evs), n, w, item, FREE)
    ensures Possible(s0, more) && more == evs + [TypeGroup(n, {1})]
    ensures Taken(Run(s0, more), n, w.(typed := w.typed + 1), item, Typed({1}, 1))
  {
    TypeFirst(Run(s0, evs), n, w, item);
    Extend(s0, evs, TypeGroup(n, {1}));
    more := evs + [TypeGroup(n, {1})];
  }

  lemma TypeAgainOn(s0: Node, evs: seq<Event>, n: nat, w: World, item: Row) returns (more: seq<Event>)
    requires Possible(s0, evs) && Taken(Run(s0, evs), n, w, item, Typed({1}, 1)) && item.directive
    ensures Possible(s0, more) && more == evs + [TypeAgain(n)]
    ensures Taken(Run(s0, more), n, w.(typed := w.typed + 1), item, Typed({1}, 2))
  {
    TypeSecond(Run(s0, evs), n, w, item);
    Extend(s0, evs, TypeAgain(n));
    more := evs + [TypeAgain(n)];
  }

  lemma JudgeOn(s0: Node, evs: seq<Event>, n: nat, w: World, item: Row, v: Verdict) returns (more: seq<Event>)
    requires Possible(s0, evs) && Taken(Run(s0, evs), n, w, item, Typed({1}, 1))
    requires v.Retryable? ==> 1 <= v.maxAttempts <= MAX_ATTEMPTS
    ensures Possible(s0, more) && Taken(Run(s0, more), n, w, item, Settling({1}, v)) && more == evs + [Judge(n, v)]
  {
    JudgeFirst(Run(s0, evs), n, w, item, v);
    Extend(s0, evs, Judge(n, v));
    more := evs + [Judge(n, v)];
  }

  lemma WakeIt(s0: Node, evs: seq<Event>, n: nat, w: World) returns (more: seq<Event>)
    requires Possible(s0, evs) && Waiting(Run(s0, evs), n, w, false)
    ensures Possible(s0, more) && Taken(Run(s0, more), n, w, w.row, FREE) && more == evs + [WakeUp(n), TakeAll(n)]
  {
    more := WakeOn(s0, evs, n, w);
    more := TakeOn(s0, more, n, w);
  }

  function Taking(n: nat): seq<Event> { [Arm(n, PANE), WakeUp(n + 1), TakeAll(n + 1)] }

  function Typing(n: nat, v: Verdict): seq<Event> { [TypeGroup(n, {1}), Judge(n, v)] }

  /** From a pane owed an arm to a release that has taken the row. */
  lemma TakeIt(s0: Node, evs: seq<Event>, n: nat, w: World) returns (more: seq<Event>)
    requires Possible(s0, evs) && Armable(Run(s0, evs), n, w)
    ensures Possible(s0, more) && Taken(Run(s0, more), n + 1, w, w.row, FREE)
    ensures more == evs + Taking(n)
  {
    more := ArmOn(s0, evs, n, w);
    more := WakeIt(s0, more, n + 1, w);
  }

  /** ... and typed it, with this verdict. */
  lemma TypeIt(s0: Node, evs: seq<Event>, n: nat, w: World, item: Row, v: Verdict) returns (more: seq<Event>)
    requires Possible(s0, evs) && Taken(Run(s0, evs), n, w, item, FREE)
    requires v.Retryable? ==> 1 <= v.maxAttempts <= MAX_ATTEMPTS
    ensures Possible(s0, more) && Taken(Run(s0, more), n, w.(typed := w.typed + 1), item, Settling({1}, v))
    ensures more == evs + Typing(n, v)
  {
    more := TypeOn(s0, evs, n, w, item);
    more := JudgeOn(s0, more, n, w.(typed := w.typed + 1), item, v);
  }

  // ---------------------------------------------------------------- a crash before the row is held again

  lemma LiftedLost(s: Node, n: nat, w: World, item: Row)
    requires LiftedAt(s, n, w, item) && w.receipts == map[]
    ensures Enabled(s, Crash) && !Kept(Apply(s, Crash), 1)
  {
    assert Apply(s, Crash).threads == map[];
  }

  lemma LoseIt(s0: Node, evs: seq<Event>, n: nat, w: World, item: Row) returns (more: seq<Event>)
    requires Possible(s0, evs) && Taken(Run(s0, evs), n, w, item, Settling({1}, Retryable(3)))
    requires !item.directive && item.attempts < 2 && w.receipts == map[]
    ensures Possible(s0, more) && !Kept(Run(s0, more), 1) && more == evs + [SettleRetry(n, 1), Crash]
  {
    RetryFirst(Run(s0, evs), n, w, item);
    Extend(s0, evs, SettleRetry(n, 1));
    more := evs + [SettleRetry(n, 1)];
    LiftedLost(Run(s0, more), n, w.(row := Older(item)), item);
    Extend(s0, more, Crash);
    more := more + [Crash];
  }

  lemma LoseFrom(s0: Node, evs: seq<Event>, w: World) returns (more: seq<Event>)
    requires Possible(s0, evs) && Armable(Run(s0, evs), 0, w) && !w.row.directive && w.row.attempts < 2 && w.receipts == map[]
    ensures Possible(s0, more) && !Kept(Run(s0, more), 1)
    ensures more == evs + Taking(0) + Typing(1, Retryable(3)) + [SettleRetry(1, 1), Crash]
  {
    more := TakeIt(s0, evs, 0, w);
    more := TypeIt(s0, more, 1, w, w.row, Retryable(3));
    more := LoseIt(s0, more, 1, w.(typed := w.typed + 1), w.row);
  }

  /** The row held before a retry is gone after a crash, with no receipt, and no step reported it. */
  lemma LostInRetryWindow(apply: bool) returns (evs: seq<Event>)
    ensures evs == [OfferHold(Sample(false, 0))] + Taking(0) + Typing(1, Retryable(3)) + [SettleRetry(1, 1), Crash]
    ensures Possible(Init(apply), evs) && !Kept(Run(Init(apply), evs), 1)
  {
    evs := HoldIt(apply, false);
    evs := LoseFrom(Init(apply), evs, World(apply, map[], Sample(false, 0), 0, 0));
  }

  // ---------------------------------------------------------------- restarts

  predicate Halted(s: Node, w: World) {
    s.mode.Down? && Tables(s, w) && s.threads == map[] && s.inflight == {} && s.waits == map[]
  }

  /** The restart has `left` still to judge, and nothing to acknowledge. */
  predicate Restarting(s: Node, w: World, left: set<EventId>) {
    s.mode.Recovering? && s.mode.left == left && s.mode.owed.None? && Tables(s, w) && s.threads == map[] && s.inflight == {} &&
    s.waits == map[] && s.held == map[PANE := {1}]
  }

  lemma CrashTyped(s: Node, n: nat, w: World, item: Row, phase: Phase)
    requires Taken(s, n, w, item, phase) && (1 in phase.group || (phase.Recorded? && phase.eid == 1))
    ensures Enabled(s, Crash) && Halted(Apply(s, Crash), w.(cut := w.cut + 1))
  {
    assert Apply(s, Crash) == DoCrash(s);
    CrashedOnce(s, n, w, item, phase);
  }

  lemma CrashedOnce(s: Node, n: nat, w: World, item: Row, phase: Phase)
    requires Taken(s, n, w, item, phase) && (1 in phase.group || (phase.Recorded? && phase.eid == 1))
    ensures Halted(DoCrash(s), w.(cut := w.cut + 1))
  {
    assert 1 in Unsettled(s.threads[n]);
    CrashCounts(s, n, 1);
    CrashedTables(s, w);
  }

  lemma CrashedTables(s: Node, w: World)
    requires Tables(s, w) && Count(DoCrash(s).cut, 1) == w.cut + 1
    ensures Halted(DoCrash(s), w.(cut := w.cut + 1))
  {
  }

  lemma RestoreFirst(s: Node, w: World)
    requires Halted(s, w)
    ensures Enabled(s, Restore) && Apply(s, Restore) == DoRestore(s) && Restarting(DoRestore(s), w, {1})
  {
    assert RowsAt(s.store, PANE) == {1};
    assert DoRestore(s).held.Keys == {PANE};
  }

  lemma RestoreKept(s: Node, w: World)
    requires Restarting(s, w, {1}) && !(w.apply && Matches(s, 1))
    ensures Enabled(s, RestoreRow(1)) && Restarting(Apply(s, RestoreRow(1)), w, {})
  {
    assert {1} - {1} == {};
  }

  lemma RestoreLast(s: Node, w: World)
    requires Restarting(s, w, {})
    ensures Enabled(s, RestoreDone) && Armable(Apply(s, RestoreDone), s.next, w)
  {
    assert s.held.Keys == {PANE};
  }

  lemma RestoreOn(s0: Node, evs: seq<Event>, w: World) returns (more: seq<Event>)
    requires Possible(s0, evs) && Halted(Run(s0, evs), w)
    ensures Possible(s0, more) && Restarting(Run(s0, more), w, {1}) && more == evs + [Restore]
    ensures Run(s0, more) == DoRestore(Run(s0, evs))
  {
    RestoreFirst(Run(s0, evs), w);
    Extend(s0, evs, Restore);
    more := evs + [Restore];
  }

  /** A restart that keeps the row ends with its pane owed an arm. */
  lemma RestartIt(s0: Node, evs: seq<Event>, w: World) returns (more: seq<Event>, n: nat)
    requires Possible(s0, evs) && Halted(Run(s0, evs), w)
    requires w.apply ==> 1 !in w.receipts || w.receipts[1] != Receipt(PANE, w.row.text)
    ensures Possible(s0, more) && Armable(Run(s0, more), n, w) && more == evs + [Restore, RestoreRow(1), RestoreDone]
  {
    more := RestoreOn(s0, evs, w);
    RestoreKept(Run(s0, more), w);
    Extend(s0, more, RestoreRow(1));
    more := more + [RestoreRow(1)];
    n := Run(s0, more).next;
    RestoreLast(Run(s0, more), w);
    Extend(s0, more, RestoreDone);
    more := more + [RestoreDone];
  }

  lemma CrashIt(s0: Node, evs: seq<Event>, n: nat, w: World, item: Row, phase: Phase) returns (more: seq<Event>)
    requires Possible(s0, evs) && Taken(Run(s0, evs), n, w, item, phase)
    requires 1 in phase.group || (phase.Recorded? && phase.eid == 1)
    ensures Possible(s0, more) && Halted(Run(s0, more), w.(cut := w.cut + 1)) && more == evs + [Crash]
  {
    CrashTyped(Run(s0, evs), n, w, item, phase);
    Extend(s0, evs, Crash);
    more := evs + [Crash];
  }

  // ---------------------------------------------------------------- a recorded row typed again

  lemma RecordFirst(s: Node, n: nat, w: World, item: Row)
    requires Taken(s, n, w, item, Settling({1}, Landed({1}))) && w.receipts == map[]
    ensures Enabled(s, SettleRecord(n, 1))
    ensures Taken(Apply(s, SettleRecord(n, 1)), n, w.(receipts := map[1 := Receipt(PANE, item.text)]), item,
                  Recorded({}, Landed({1}), 1))
  {
    assert {1} - {1} == {};
  }

  lemma RecordOn(s0: Node, evs: seq<Event>, n: nat, w: World, item: Row) returns (more: seq<Event>)
    requires Possible(s0, evs) && Taken(Run(s0, evs), n, w, item, Settling({1}, Landed({1}))) && w.receipts == map[]
    ensures Possible(s0, more) && more == evs + [SettleRecord(n, 1)]
    ensures Taken(Run(s0, more), n, w.(receipts := map[1 := Receipt(PANE, item.text)]), item, Recorded({}, Landed({1}), 1))
  {
    RecordFirst(Run(s0, evs), n, w, item);
    Extend(s0, evs, SettleRecord(n, 1));
    more := evs + [SettleRecord(n, 1)];
  }

  /** From a release that took the row: typed, landed, recorded, and the node crashes before the held row is deleted. */
  lemma RecordIt(s0: Node, evs: seq<Event>, n: nat, w: World, item: Row) returns (more: seq<Event>)
    requires Possible(s0, evs) && Taken(Run(s0, evs), n, w, item, FREE) && w.receipts == map[]
    ensures Possible(s0, more)
    ensures Halted(Run(s0, more), w.(typed := w.typed + 1, cut := w.cut + 1, receipts := map[1 := Receipt(PANE, item.text)]))
    ensures more == evs + Typing(n, Landed({1})) + [SettleRecord(n, 1), Crash]
  {
    more := TypeIt(s0, evs, n, w, item, Landed({1}));
    more := RecordThenCrash(s0, more, n, w.(typed := w.typed + 1), item);
  }

  lemma RecordThenCrash(s0: Node, evs: seq<Event>, n: nat, w: World, item: Row) returns (more: seq<Event>)
    requires Possible(s0, evs) && Taken(Run(s0, evs), n, w, item, Settling({1}, Landed({1}))) && w.receipts == map[]
    ensures Possible(s0, more) && Halted(Run(s0, more), w.(cut := w.cut + 1, receipts := map[1 := Receipt(PANE, item.text)]))
    ensures more == evs + [SettleRecord(n, 1), Crash]
  {
    more := RecordOn(s0, evs, n, w, item);
    more := CrashIt(s0, more, n, w.(receipts := map[1 := Receipt(PANE, item.text)]), item, Recorded({}, Landed({1}), 1));
  }

  /** From a halted node that keeps the row to a release that may type it. */
  lemma TypeableAgain(s0: Node, evs: seq<Event>, w: World) returns (more: seq<Event>, t: nat)
    requires Possible(s0, evs) && Halted(Run(s0, evs), w) && 1 in w.receipts
    requires w.apply ==> w.receipts[1] != Receipt(PANE, w.row.text)
    ensures Possible(s0, more) && 1 in Run(s0, more).delivered && Enabled(Run(s0, more), TypeGroup(t, {1}))
  {
    more, t := RestartIt(s0, evs, w);
    more := TakeIt(s0, more, t, w);
    t := t + 1;
    TypeFirst(Run(s0, more), t, w, w.row);
  }

  /** Without apply, a row already recorded as delivered can be typed again after a crash. */
  lemma RetypedWithoutApply() returns (evs: seq<Event>, t: nat)
    ensures Possible(Init(false), evs)
    ensures 1 in Run(Init(false), evs).delivered && Enabled(Run(Init(false), evs), TypeGroup(t, {1}))
  {
    var s0, w := Init(false), World(false, map[], Sample(false, 0), 0, 0);
    evs := HoldIt(false, false);
    evs := TakeIt(s0, evs, 0, w);
    evs := RecordIt(s0, evs, 1, w, w.row);
    evs, t := TypeableAgain(s0, evs, World(false, map[1 := Receipt(PANE, "text")], w.row, 1, 1));
  }

  /** A row that may be in the pane can be typed again if a crash comes before it is settled. */
  lemma MaybeRetyped(apply: bool) returns (judged: seq<Event>, evs: seq<Event>, t: nat)
    ensures Possible(Init(apply), judged) && JudgedRow(Run(Init(apply), judged), 1, 1)
    ensures Run(Init(apply), judged).threads[1].phase.verdict == MaybeInPane
    ensures judged + [Crash] <= evs && Possible(Init(apply), evs) && Enabled(Run(Init(apply), evs), TypeGroup(t, {1}))
  {
    var s0, w := Init(apply), World(apply, map[], Sample(false, 0), 0, 0);
    judged := HoldIt(apply, false);
    judged := TakeIt(s0, judged, 0, w);
    judged := TypeIt(s0, judged, 1, w, w.row, MaybeInPane);
    evs := CrashIt(s0, judged, 1, w.(typed := 1), w.row, Settling({1}, MaybeInPane));
    evs, t := BackToPane(s0, evs, w.(typed := 1, cut := 1));
  }

  lemma BackToPane(s0: Node, evs: seq<Event>, w: World) returns (more: seq<Event>, t: nat)
    requires Possible(s0, evs) && Halted(Run(s0, evs), w) && w.receipts == map[]
    ensures Possible(s0, more) && evs <= more && Enabled(Run(s0, more), TypeGroup(t, {1}))
  {
    more, t := RestartIt(s0, evs, w);
    more := TakeIt(s0, more, t, w);
    t := t + 1;
    TypeFirst(Run(s0, more), t, w, w.row);
  }

  lemma EditFirst(s: Node, n: nat, w: World, item: Row, text: string)
    requires Taken(s, n, w, item, FREE) && text != ""
    ensures Enabled(s, Edit(1, text)) && Taken(Apply(s, Edit(1, text)), n, w.(row := w.row.(text := text)), item, FREE)
  {
  }

  lemma EditOn(s0: Node, evs: seq<Event>, n: nat, w: World, item: Row, text: string) returns (more: seq<Event>)
    requires Possible(s0, evs) && Taken(Run(s0, evs), n, w, item, FREE) && text != ""
    ensures Possible(s0, more) && more == evs + [Edit(1, text)]
    ensures Taken(Run(s0, more), n, w.(row := w.row.(text := text)), item, FREE)
  {
    EditFirst(Run(s0, evs), n, w, item, text);
    Extend(s0, evs, Edit(1, text));
    more := evs + [Edit(1, text)];
  }

  /** Under apply too, once an operator edits the row in flight: its record no longer matches, and the restart keeps it. */
  lemma RetypedAfterEdit() returns (evs: seq<Event>, t: nat)
    ensures Possible(Init(true), evs)
    ensures 1 in Run(Init(true), evs).delivered && Enabled(Run(Init(true), evs), TypeGroup(t, {1}))
  {
    var s0, w := Init(true), World(true, map[], Sample(false, 0), 0, 0);
    evs := HoldIt(true, false);
    evs := TakeIt(s0, evs, 0, w);
    evs := EditOn(s0, evs, 1, w, w.row, "other");
    var edited := w.(row := w.row.(text := "other"));
    evs := RecordIt(s0, evs, 1, edited, w.row);
    evs, t := TypeableAgain(s0, evs, World(true, map[1 := Receipt(PANE, "text")], edited.row, 1, 1));
  }

  // ---------------------------------------------------------------- an acknowledgement lost in a restart

  /** The restart deleted row 1 and has yet to acknowledge it. */
  predicate Owing(s: Node) {
    s.mode.Recovering? && s.mode.owed == Some(1) && 1 in s.mode.doomed && 1 in s.delivered
  }

  lemma RetireFirst(s: Node, w: World)
    requires Halted(s, w) && w.apply && w.receipts == map[1 := Receipt(PANE, w.row.text)]
    ensures var s1 := DoRestore(s); Enabled(s1, RestoreRow(1)) && Owing(Apply(s1, RestoreRow(1)))
  {
    assert Matches(s, 1);
  }

  lemma RetireIt(s0: Node, evs: seq<Event>, w: World) returns (more: seq<Event>)
    requires Possible(s0, evs) && Halted(Run(s0, evs), w) && w.apply && w.receipts == map[1 := Receipt(PANE, w.row.text)]
    ensures Possible(s0, more) && Owing(Run(s0, more)) && more == evs + [Restore, RestoreRow(1)]
  {
    more := RestoreOn(s0, evs, w);
    RetireFirst(Run(s0, evs), w);
    Extend(s0, more, RestoreRow(1));
    more := more + [RestoreRow(1)];
  }

  lemma RetireFrom(s0: Node, evs: seq<Event>, w: World) returns (more: seq<Event>)
    requires Possible(s0, evs) && Armable(Run(s0, evs), 0, w) && w.apply && w.receipts == map[]
    ensures Possible(s0, more) && Owing(Run(s0, more))
    ensures more == evs + Taking(0) + Typing(1, Landed({1})) + [SettleRecord(1, 1), Crash] + [Restore, RestoreRow(1)]
  {
    more := TakeIt(s0, evs, 0, w);
    more := RecordIt(s0, more, 1, w, w.row);
    more := RetireIt(s0, more, World(true, map[1 := Receipt(PANE, w.row.text)], w.row, w.typed + 1, w.cut + 1));
  }

  /** A run that has deleted the row it retires: if the node dies now, no acknowledgement ever follows. */
  lemma AckLost() returns (evs: seq<Event>)
    ensures evs == [OfferHold(Sample(false, 0))] + Taking(0) + Typing(1, Landed({1})) + [SettleRecord(1, 1), Crash] +
                   [Restore, RestoreRow(1)]
    ensures Possible(Init(true), evs) && Owing(Run(Init(true), evs))
  {
    evs := HoldIt(true, false);
    evs := RetireFrom(Init(true), evs, World(true, map[], Sample(false, 0), 0, 0));
  }

  // ---------------------------------------------------------------- the typing bound is reached

  /** One inject cut off by a crash: typed once more (a directive twice), and nothing else to show for it. */
  lemma CutOff(s0: Node, evs: seq<Event>, n: nat, w: World) returns (more: seq<Event>, m: nat)
    requires Possible(s0, evs) && Armable(Run(s0, evs), n, w) && w.receipts == map[]
    ensures Possible(s0, more)
    ensures Armable(Run(s0, more), m, w.(typed := w.typed + (if w.row.directive then 2 else 1), cut := w.cut + 1))
  {
    var shots := if w.row.directive then 2 else 1;
    var w1 := w.(typed := w.typed + shots);
    more := TakeIt(s0, evs, n, w);
    more := TypeAll(s0, more, n + 1, w, shots);
    more := CrashIt(s0, more, n + 1, w1, w.row, Typed({1}, shots));
    more, m := RestartIt(s0, more, w1.(cut := w1.cut + 1));
  }

  lemma TypeAll(s0: Node, evs: seq<Event>, n: nat, w: World, shots: nat) returns (more: seq<Event>)
    requires Possible(s0, evs) && Taken(Run(s0, evs), n, w, w.row, FREE) && shots == (if w.row.directive then 2 else 1)
    ensures Possible(s0, more) && Taken(Run(s0, more), n, w.(typed := w.typed + shots), w.row, Typed({1}, shots))
  {
    more := TypeOn(s0, evs, n, w, w.row);
    if w.row.directive { more := TypeAgainOn(s0, more, n, w.(typed := w.typed + 1), w.row); }
  }

  /** k injects of a held row, each cut off by a crash. */
  lemma {:induction false} CutOffs(apply: bool, directive: bool, k: nat) returns (evs: seq<Event>, n: nat)
    ensures Possible(Init(apply), evs)
    ensures Armable(Run(Init(apply), evs), n, World(apply, map[], Sample(directive, 0), if directive then 2 * k else k, k))
  {
    if k == 0 {
      evs := HoldIt(apply, directive);
      n := 0;
    } else {
      evs, n := CutOffs(apply, directive, k - 1);
      var typed := if directive then 2 * (k - 1) else k - 1;
      evs, n := CutOff(Init(apply), evs, n, World(apply, map[], Sample(directive, 0), typed, k - 1));
    }
  }

  /** The row is deleted and about to be held again. */
  predicate LiftedAt(s: Node, n: nat, w: World, item: Row) {
    s.mode.Running? && Tables(s.(store := map[1 := w.row]), w) && s.store == map[] && n in s.threads && n < s.next &&
    s.inflight == {1} && w.row == Older(item) &&
    s.threads[n] == Delivering(PANE, map[1 := item], {1}, Rehold({}, Retryable(3), w.row), map[], false)
  }

  lemma RetryFirst(s: Node, n: nat, w: World, item: Row)
    requires Taken(s, n, w, item, Settling({1}, Retryable(3))) && !item.directive && item.attempts < 2
    ensures Enabled(s, SettleRetry(n, 1)) && LiftedAt(Apply(s, SettleRetry(n, 1)), n, w.(row := Older(item)), item)
  {
    var s1 := DoSettleRetry(s, n, 1);
    assert s1.store == map[] && {1} - {1} == {};
  }

  lemma ReinsertFirst(s: Node, n: nat, w: World, item: Row)
    requires LiftedAt(s, n, w, item)
    ensures Enabled(s, Reinsert(n)) && Reheld(Apply(s, Reinsert(n)), n, w, item)
  {
    var s' := DoReinsert(s, n);
    assert s'.store == map[1 := w.row];
    assert RowsAt(s'.store, PANE) == {1} && {1} - {1} == {};
  }

  /** The row is held again one attempt older, and the pane is not armed yet. */
  predicate Reheld(s: Node, n: nat, w: World, item: Row) {
    s.mode.Running? && Tables(s, w) && n in s.threads && n < s.next && s.inflight == {1} && HeldAt(s, PANE) == {1} &&
    s.threads[n] == Delivering(PANE, map[1 := item], {}, Rearm({}, Retryable(3)), map[1 := Fate.Reheld], false)
  }

  /** Held, armed, and the release is about to end. */
  predicate Rearmed(s: Node, n: nat, t: nat, w: World, item: Row) {
    s.mode.Running? && Tables(s, w) && n in s.threads && t in s.threads && n < t < s.next && s.inflight == {1} &&
    s.threads[t] == Wait(PANE, false) &&
    s.threads[n] == Delivering(PANE, map[1 := item], {}, Settling({}, Retryable(3)), map[1 := Fate.Reheld], false)
  }

  lemma RearmFirst(s: Node, n: nat, w: World, item: Row)
    requires Reheld(s, n, w, item)
    ensures Enabled(s, RearmRetry(n)) && Rearmed(Apply(s, RearmRetry(n)), n, s.next, w, item)
  {
    var th := s.threads[n];
    var m := Put(s, n, th.(phase := Settling(th.phase.group, th.phase.verdict)));
    assert HeldAt(m, PANE) == {1};
    StoppedThread(m, PANE, n);
    var s1 := StopWait(m, PANE);
    assert s1 == m.(threads := s1.threads, waits := s1.waits);
  }

  lemma FinishFirst(s: Node, n: nat, t: nat, w: World, item: Row)
    requires Rearmed(s, n, t, w, item)
    ensures Enabled(s, Finish(n)) && Waiting(Apply(s, Finish(n)), t, w, false)
  {
  }

  lemma ReholdIt(s0: Node, evs: seq<Event>, n: nat, w: World, item: Row) returns (more: seq<Event>)
    requires Possible(s0, evs) && Taken(Run(s0, evs), n, w, item, Settling({1}, Retryable(3)))
    requires !item.directive && item.attempts < 2
    ensures Possible(s0, more) && Reheld(Run(s0, more), n, w.(row := Older(item)), item)
  {
    RetryFirst(Run(s0, evs), n, w, item);
    Extend(s0, evs, SettleRetry(n, 1));
    more := evs + [SettleRetry(n, 1)];
    more := ReinsertOn(s0, more, n, w.(row := Older(item)), item);
  }

  lemma RearmIt(s0: Node, evs: seq<Event>, n: nat, w: World, item: Row) returns (more: seq<Event>, t: nat)
    requires Possible(s0, evs) && Reheld(Run(s0, evs), n, w, item)
    ensures Possible(s0, more) && Waiting(Run(s0, more), t, w, false)
  {
    t := Run(s0, evs).next;
    RearmFirst(Run(s0, evs), n, w, item);
    Extend(s0, evs, RearmRetry(n));
    more := evs + [RearmRetry(n)];
    FinishFirst(Run(s0, more), n, t, w, item);
    Extend(s0, more, Finish(n));
    more := more + [Finish(n)];
  }

  /** A rejected inject: typed once more, held again one attempt older, and taken by the next release. */
  lemma RetryIt(s0: Node, evs: seq<Event>, n: nat, w: World) returns (more: seq<Event>, m: nat)
    requires Possible(s0, evs) && Taken(Run(s0, evs), n, w, w.row, FREE) && !w.row.directive && w.row.attempts < 2
    ensures Possible(s0, more)
    ensures var w' := w.(typed := w.typed + 1, row := Older(w.row)); Taken(Run(s0, more), m, w', w'.row, FREE)
  {
    var w1 := w.(typed := w.typed + 1);
    more := TypeIt(s0, evs, n, w, w.row, Retryable(3));
    more := ReholdIt(s0, more, n, w1, w.row);
    more, m := RearmIt(s0, more, n, w1.(row := Older(w.row)), w.row);
    more := WakeIt(s0, more, m, w1.(row := Older(w.row)));
  }

  predicate Shown(s: Node, typed: nat, cut: nat) { Count(s.typed, 1) == typed && Count(s.cut, 1) == cut }

  /** A fresh row is typed three times more: two rejected injects, and a last one. */
  lemma ThreeTimes(s0: Node, evs: seq<Event>, n: nat, w: World) returns (more: seq<Event>)
    requires Possible(s0, evs) && Taken(Run(s0, evs), n, w, w.row, FREE) && !w.row.directive && w.row.attempts == 0
    ensures Possible(s0, more) && Shown(Run(s0, more), w.typed + 3, w.cut)
  {
    var m;
    more, m := RetryIt(s0, evs, n, w);
    var w1 := w.(typed := w.typed + 1, row := Older(w.row));
    more, m := RetryIt(s0, more, m, w1);
    var w2 := w1.(typed := w1.typed + 1, row := Older(w1.row));
    more := TypeOn(s0, more, m, w2, w2.row);
  }

  // ---------------------------------------------------------------- a cancel that a retry undoes

  lemma CancelFirst(s: Node, n: nat, w: World, item: Row)
    requires Taken(s, n, w, item, Settling({1}, Retryable(3)))
    ensures Enabled(s, Cancel(1)) && var s' := Apply(s, Cancel(1));
      s'.mode.Running? && s'.store == map[] && s'.delivered == w.receipts && s'.applyDedupe == w.apply && n in s'.threads &&
      n < s'.next && s'.inflight == {1} && s'.threads[n] == s.threads[n] && s'.typed == s.typed && s'.cut == s.cut && 1 in s'.cancelled
  {
  }

  lemma RetryAnyway(s: Node, n: nat, w: World, item: Row)
    requires s.mode.Running? && s.store == map[] && s.delivered == w.receipts && s.applyDedupe == w.apply && n in s.threads &&
      n < s.next && s.inflight == {1} && Count(s.typed, 1) == w.typed && Count(s.cut, 1) == w.cut && w.row == Older(item)
    requires item.eid == 1 && item.pane == PANE && !item.directive && item.attempts < 2
    requires s.threads[n] == Delivering(PANE, map[1 := item], {1}, Settling({1}, Retryable(3)), map[], false)
    ensures Enabled(s, SettleRetry(n, 1)) && LiftedAt(Apply(s, SettleRetry(n, 1)), n, w, item)
  {
    var s1 := DoSettleRetry(s, n, 1);
    assert s1.store == map[] && {1} - {1} == {};
  }

  lemma CancelOn(s0: Node, evs: seq<Event>, n: nat, w: World, item: Row) returns (more: seq<Event>)
    requires Possible(s0, evs) && Taken(Run(s0, evs), n, w, item, Settling({1}, Retryable(3)))
    requires !item.directive && item.attempts < 2
    ensures more == evs + [Cancel(1)] + [SettleRetry(n, 1)] && Possible(s0, more)
    ensures LiftedAt(Run(s0, more), n, w.(row := Older(item)), item)
  {
    CancelFirst(Run(s0, evs), n, w, item);
    Extend(s0, evs, Cancel(1));
    more := evs + [Cancel(1)];
    RetryAnyway(Run(s0, more), n, w.(row := Older(item)), item);
    Extend(s0, more, SettleRetry(n, 1));
    more := more + [SettleRetry(n, 1)];
  }

  /** The row cancelled while its inject was out is held again by the retry, as if nobody had cancelled it. */
  lemma CancelUndone(apply: bool) returns (evs: seq<Event>)
    ensures evs == [OfferHold(Sample(false, 0))] + Taking(0) + Typing(1, Retryable(3)) + [Cancel(1)] + [SettleRetry(1, 1)] + [Reinsert(1)]
    ensures Possible(Init(apply), evs) && 1 in Run(Init(apply), evs).store && 1 in HeldAt(Run(Init(apply), evs), PANE)
  {
    var s0, w := Init(apply), World(apply, map[], Sample(false, 0), 0, 0);
    evs := HoldIt(apply, false);
    evs := TakeIt(s0, evs, 0, w);
    evs := TypeIt(s0, evs, 1, w, w.row, Retryable(3));
    evs := CancelOn(s0, evs, 1, w.(typed := 1), w.row);
    evs := ReinsertOn(s0, evs, 1, w.(typed := 1, row := Older(w.row)), w.row);
  }

  lemma ReinsertOn(s0: Node, evs: seq<Event>, n: nat, w: World, item: Row) returns (more: seq<Event>)
    requires Possible(s0, evs) && LiftedAt(Run(s0, evs), n, w, item)
    ensures more == evs + [Reinsert(n)] && Possible(s0, more) && Reheld(Run(s0, more), n, w, item)
  {
    ReinsertFirst(Run(s0, evs), n, w, item);
    Extend(s0, evs, Reinsert(n));
    more := evs + [Reinsert(n)];
  }

  /** For every k: a run with k crashes that types the row 3 + k times. */
  lemma TypedTight(apply: bool, k: nat) returns (evs: seq<Event>)
    ensures Possible(Init(apply), evs) && Shown(Run(Init(apply), evs), 3 + k, k)
  {
    var n;
    evs, n := CutOffs(apply, false, k);
    var w := World(apply, map[], Sample(false, 0), k, k);
    evs := TakeIt(Init(apply), evs, n, w);
    evs := ThreeTimes(Init(apply), evs, n + 1, w);
  }

  /** ... and a directive 2 + 2 * k times. */
  lemma DirectiveTight(apply: bool, k: nat) returns (evs: seq<Event>)
    ensures Possible(Init(apply), evs) && Shown(Run(Init(apply), evs), 2 + 2 * k, k)
  {
    var n;
    evs, n := CutOffs(apply, true, k);
    var w := World(apply, map[], Sample(true, 0), 2 * k, k);
    evs := TakeIt(Init(apply), evs, n, w);
    evs := TypeAll(Init(apply), evs, n + 1, w, 2);
  }
}
