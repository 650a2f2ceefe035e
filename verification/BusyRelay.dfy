/**
 * The node's busy relay as a state machine. One event is one lock region, one store
 * call or one answer from outside (a pane probe, an inject verdict, a crash), so every
 * interleaving of the concurrent waits, releases, retries and operator commands is a
 * sequence of events.
 */
module BusyRelay {
  import opened Options

  type EventId = nat
  type Pane = string

  const MAX_ATTEMPTS: nat := 3

  /** One row of relay_held. */
  datatype Row = Row(eid: EventId, pane: Pane, lane: string, text: string, directive: bool, attempts: nat)

  /** One row of relay_delivered; the text stands for its fingerprint. */
  datatype Receipt = Receipt(pane: Pane, text: string)

  /** What one inject answered. */
  datatype Verdict = Retryable(maxAttempts: nat) | MaybeInPane | Landed(proven: set<EventId>)

  /** The reason a dropped row is reported with: its lease ended, its attempts ran out, or it may be in the pane. */
  datatype Why = LeaseEnded | Exhausted | Unproven

  /** How one row taken by a release ends. */
  datatype Fate = Delivered | Dropped(why: Why) | Reheld | Left

  /** Where a release stands between taking its rows and finishing. */
  datatype Phase =
    | Settling(group: set<EventId>, verdict: Verdict)                  // rows of the last inject still to settle
    | Typed(group: set<EventId>, shots: nat)                           // an inject of this group is out
    | Recorded(group: set<EventId>, verdict: Verdict, eid: EventId)    // receipt written, held row not yet deleted
    | Rehold(group: set<EventId>, verdict: Verdict, row: Row)          // deleted, about to be held again
    | Rearm(group: set<EventId>, verdict: Verdict)                     // held again, pane not yet re-armed

  datatype Thread =
    | Wait(pane: Pane, cancelled: bool)                                // inside herdr agent wait
    | Woken(pane: Pane, cancelled: bool)                               // wait over, release not begun
    | Delivering(pane: Pane, items: map<EventId, Row>, todo: set<EventId>, phase: Phase,
                 fates: map<EventId, Fate>, always: bool)              // always: a working release
    | Reconciling(pane: Pane, always: bool)
    | Rearming(pane: Pane)
    | Arming(panes: set<Pane>)                                         // still has to arm these panes
    | Resending(pane: Pane)                                            // found its event held, pane's rows not yet read
    | Replaying(pane: Pane, ids: set<EventId>)                         // read the pane's rows, not yet registered them

  datatype Mode =
    | Running
    | Down
    | Recovering(left: set<EventId>, owed: Option<EventId>, doomed: set<EventId>)

  datatype Node = Node(
    store: map<EventId, Row>, delivered: map<EventId, Receipt>,
    held: map<Pane, set<EventId>>, waits: map<Pane, nat>, inflight: set<EventId>,
    threads: map<nat, Thread>, next: nat, mode: Mode, applyDedupe: bool,
    seen: map<EventId, bool>,       // every event ever offered, and whether it is a directive
    cancelled: set<EventId>,        // rows an operator took away
    typed: map<EventId, nat>,       // how often each event was typed, restarts included
    cut: map<EventId, nat>,         // crashes after an event was typed and before that was settled
    taken: map<EventId, string>,    // the text a release took, up to the one that recorded the event
    edited: set<EventId>,           // rows whose text an operator changed after that
    acks: map<EventId, nat>)        // acknowledgements made while recovering

  datatype Event =
    | OfferHold(row: Row)
    | OfferRetry(row: Row)
    | OfferTyped(row: Row, shots: nat, landed: bool)
    | Replay(eid: EventId)
    | ReplayRead(t: nat)
    | ReplayWrite(t: nat)
    | Edit(eid: EventId, text: string)
    | Cancel(eid: EventId)
    | Resume
    | Arm(t: nat, pane: Pane)
    | WakeUp(t: nat)
    | WaitDies(t: nat)
    | TakeAll(t: nat)
    | TakeWorking(t: nat, expired: bool)
    | DropRow(t: nat, eid: EventId)
    | LeaveRow(t: nat, eid: EventId)
    | Unverifiable(t: nat, eid: EventId)
    | TypeGroup(t: nat, group: set<EventId>)
    | TypeAgain(t: nat)
    | Judge(t: nat, verdict: Verdict)
    | SettleDrop(t: nat, eid: EventId)
    | SettleRecord(t: nat, eid: EventId)
    | SettleDelete(t: nat)
    | SettleRetry(t: nat, eid: EventId)
    | Reinsert(t: nat)
    | RearmRetry(t: nat)
    | Finish(t: nat)
    | Reconcile(t: nat)
    | RearmCheck(t: nat)
    | Crash
    | Restore
    | RestoreRow(eid: EventId)
    | RestoreAck
    | RestoreDone

  // ---------------------------------------------------------------- views

  function HeldAt(s: Node, p: Pane): set<EventId> {
    if p in s.held then s.held[p] else {}
  }

  /** RelayHeldForPane: the ids stored for a pane. */
  function RowsAt(store: map<EventId, Row>, p: Pane): set<EventId> {
    set e | e in store && store[e].pane == p
  }

  /** heldSnapshot: the stored rows of a pane that no release is delivering. */
  function Snapshot(s: Node, p: Pane): map<EventId, Row> {
    map e | e in s.store && s.store[e].pane == p && e !in s.inflight :: s.store[e]
  }

  function Directives(items: map<EventId, Row>): map<EventId, Row> {
    map e | e in items && items[e].directive :: items[e]
  }

  function Count(m: map<EventId, nat>, e: EventId): nat {
    if e in m then m[e] else 0
  }

  function Bump(m: map<EventId, nat>, g: set<EventId>): map<EventId, nat> {
    map e | e in m.Keys + g :: Count(m, e) + (if e in g then 1 else 0)
  }

  function Without(held: map<Pane, set<EventId>>, e: EventId): map<Pane, set<EventId>> {
    map p | p in held :: held[p] - {e}
  }

  predicate Matches(s: Node, e: EventId) {
    e in s.store && e in s.delivered && s.delivered[e] == Receipt(s.store[e].pane, s.store[e].text)
  }

  /** Attempts a row may reach before it is dropped: a directive is never held again. */
  function Limit(row: Row, maxAttempts: nat): nat {
    if row.directive then 1 else maxAttempts
  }

  predicate Uniform(items: map<EventId, Row>, group: set<EventId>) {
    (forall e | e in group :: e in items && items[e].directive) ||
    (forall e | e in group :: e in items && !items[e].directive)
  }

  // ---------------------------------------------------------------- steps

  /** Cancelling a wait matters only while it has not begun a release. */
  function Cancelled(th: Thread): Thread {
    match th
    case Wait(p, _) => Wait(p, true)
    case Woken(p, _) => Woken(p, true)
    case _ => th
  }

  function StoppedThreads(s: Node, p: Pane): map<nat, Thread> {
    if p in s.waits && s.waits[p] in s.threads then
      s.threads[s.waits[p] := Cancelled(s.threads[s.waits[p]])]
    else s.threads
  }

  /** The wait registered for a pane is cancelled and forgotten. */
  function StopWait(s: Node, p: Pane): Node {
    s.(threads := StoppedThreads(s, p), waits := s.waits - {p})
  }

  function StartWait(s: Node, p: Pane): Node {
    s.(threads := s.threads[s.next := Wait(p, false)], waits := s.waits[p := s.next], next := s.next + 1)
  }

  /** arm: ends the registered wait, and starts a new one only if rows are registered for the pane. */
  function ArmPane(s: Node, p: Pane): Node {
    if HeldAt(s, p) == {} then StopWait(s, p) else StartWait(StopWait(s, p), p)
  }

  /** Insert a row, register every stored row of its pane in memory, and owe the pane an arm. */
  function HoldRow(s: Node, row: Row): Node {
    var store := if row.eid in s.store then s.store else s.store[row.eid := row];
    s.(store := store, held := s.held[row.pane := RowsAt(store, row.pane)])
  }

  function Spawn(s: Node, th: Thread): Node {
    s.(threads := s.threads[s.next := th], next := s.next + 1)
  }

  function Put(s: Node, t: nat, th: Thread): Node {
    s.(threads := s.threads[t := th])
  }

  function End(s: Node, t: nat): Node {
    s.(threads := s.threads - {t})
  }

  /** The texts taken, once a release takes these rows: an event that is recorded keeps the text it was recorded with. */
  function TakenTexts(s: Node, items: map<EventId, Row>): map<EventId, string> {
    map e | e in s.taken.Keys + items.Keys ::
      if e in items && (e !in s.delivered || e !in s.taken) then items[e].text else s.taken[e]
  }

  /** A release takes `items`: they leave the in-memory set and become in flight. */
  function Take(s: Node, t: nat, items: map<EventId, Row>, held: map<Pane, set<EventId>>, always: bool): Node
    requires t in s.threads && s.threads[t].Woken?
  {
    var p := s.threads[t].pane;
    s.(held := held, waits := s.waits - {p}, inflight := s.inflight + items.Keys,
       threads := s.threads[t := Delivering(p, items, items.Keys, Settling({}, MaybeInPane), map[], always)],
       taken := TakenTexts(s, items), edited := s.edited - (items.Keys - s.delivered.Keys))
  }

  /** Row `e` of the release in thread `t` ends as `fate`. */
  function Settle(th: Thread, e: EventId, fate: Fate, phase: Phase): Thread
    requires th.Delivering?
  {
    th.(todo := th.todo - {e}, fates := th.fates[e := fate], phase := phase)
  }

  predicate IsDelivering(s: Node, t: nat) {
    t in s.threads && s.threads[t].Delivering?
  }

  /** The release in thread t has nothing typed that is still to be settled. */
  predicate Between(s: Node, t: nat) {
    IsDelivering(s, t) && s.threads[t].phase.Settling? && s.threads[t].phase.group == {}
  }

  predicate IdleRow(s: Node, t: nat, e: EventId) {
    Between(s, t) && e in s.threads[t].todo && e in s.threads[t].items
  }

  /** Row e was part of the last inject of thread t, and its verdict is still to be applied. */
  predicate JudgedRow(s: Node, t: nat, e: EventId) {
    IsDelivering(s, t) && s.threads[t].phase.Settling? && e in s.threads[t].phase.group &&
    e in s.threads[t].items && e in s.threads[t].todo
  }

  predicate Proven(v: Verdict, e: EventId) {
    v.Landed? && e in v.proven
  }

  predicate Retries(v: Verdict, row: Row) {
    v.Retryable? && row.attempts + 1 < Limit(row, v.maxAttempts)
  }

  predicate Fresh(s: Node, row: Row) {
    s.mode.Running? && row.eid !in s.seen && row.lane != ""
  }

  predicate IsWait(th: Thread) {
    th.Wait? || th.Woken?
  }

  // offers -------------------------------------------------------------

  /** A busy pane: the row is held. `typed` is 1 when an immediate delivery was rejected first. */
  function DoOfferHold(s: Node, row: Row, typed: nat): Node {
    Spawn(HoldRow(s.(seen := s.seen[row.eid := row.directive], typed := s.typed[row.eid := typed]), row),
          Arming({row.pane}))
  }

  /** A free pane: the row is typed at once and ends there, landed or dropped. */
  function DoOfferTyped(s: Node, row: Row, shots: nat, landed: bool): Node {
    s.(seen := s.seen[row.eid := row.directive], typed := s.typed[row.eid := shots],
       delivered := if landed then s.delivered[row.eid := Receipt(row.pane, row.text)] else s.delivered)
  }

  /** A resend of a held event finds it in the store ... */
  function DoReplay(s: Node, e: EventId): Node
    requires e in s.store
  {
    Spawn(s, Resending(s.store[e].pane))
  }

  /** ... recoverExisting reads the pane's rows before it takes the lock ... */
  function DoReplayRead(s: Node, t: nat): Node
    requires t in s.threads && s.threads[t].Resending?
  {
    Put(s, t, Replaying(s.threads[t].pane, RowsAt(s.store, s.threads[t].pane)))
  }

  /** ... and registers what it read under the lock, then arms the pane. */
  function DoReplayWrite(s: Node, t: nat): Node
    requires t in s.threads && s.threads[t].Replaying?
  {
    var p := s.threads[t].pane;
    Put(s.(held := s.held[p := s.threads[t].ids]), t, Arming({p}))
  }

  /** edit: the stored text changes, in flight or not. */
  function DoEdit(s: Node, e: EventId, text: string): Node
    requires e in s.store
  {
    s.(store := s.store[e := s.store[e].(text := text)],
       edited := if (e in s.inflight || e in s.delivered) && s.store[e].text != text then s.edited + {e} else s.edited)
  }

  /** cancel: the row leaves the store and memory, and every pane it was registered for is owed an arm. */
  function DoCancel(s: Node, e: EventId): Node
    requires e in s.store
  {
    Spawn(s.(store := s.store - {e}, cancelled := s.cancelled + {e}, held := Without(s.held, e)),
          Arming(set p | p in s.held && e in s.held[p]))
  }

  // waits --------------------------------------------------------------

  function DoArm(s: Node, t: nat, p: Pane): Node
    requires t in s.threads && s.threads[t].Arming?
  {
    ArmPane(Put(s, t, Arming(s.threads[t].panes - {p})), p)
  }

  function DoTakeAll(s: Node, t: nat): Node
    requires t in s.threads && s.threads[t].Woken?
  {
    var p := s.threads[t].pane;
    if Snapshot(s, p).Keys == {} then End(s, t) else Take(s, t, Snapshot(s, p), s.held - {p}, false)
  }

  /** What a working wake releases: the directives, or everything once the wait has run out. */
  function WorkingItems(s: Node, p: Pane, expired: bool): map<EventId, Row> {
    if expired then Snapshot(s, p) else Directives(Snapshot(s, p))
  }

  function WorkingHeld(s: Node, p: Pane, expired: bool): map<Pane, set<EventId>> {
    if WorkingItems(s, p, expired).Keys == Snapshot(s, p).Keys then s.held - {p}
    else s.held[p := HeldAt(s, p) - WorkingItems(s, p, expired).Keys]
  }

  /** releaseWorking's lock region: a release, or nothing but a new wait. */
  function DoTakeWorking(s: Node, t: nat, expired: bool): Node
    requires t in s.threads && s.threads[t].Woken?
  {
    var p := s.threads[t].pane;
    if Snapshot(s, p).Keys == {} then End(s, t)
    else if WorkingItems(s, p, expired).Keys == {} then Put(s, t, Arming({p}))
    else Take(s, t, WorkingItems(s, p, expired), WorkingHeld(s, p, expired), true)
  }

  // one delivery -------------------------------------------------------

  /** A lease that ended, or a row whose pane was unreadable too often: the row is deleted and reported. */
  function DoDropRow(s: Node, t: nat, e: EventId, why: Why): Node
    requires IdleRow(s, t, e)
  {
    Put(s.(store := s.store - {e}), t, Settle(s.threads[t], e, Dropped(why), s.threads[t].phase))
  }

  function DoLeaveRow(s: Node, t: nat, e: EventId): Node
    requires IdleRow(s, t, e)
  {
    Put(s, t, Settle(s.threads[t], e, Left, s.threads[t].phase))
  }

  /** A row that was not typed because its pane could not be read is held again, one attempt older. */
  function DoHoldAgain(s: Node, t: nat, e: EventId): Node
    requires IdleRow(s, t, e)
  {
    var th := s.threads[t];
    var row := th.items[e];
    Put(s.(store := s.store - {e}), t,
        th.(phase := Rehold({}, th.phase.verdict, row.(attempts := row.attempts + 1))))
  }

  /** retryOrDrop: held again while attempts remain. */
  function DoUnverifiable(s: Node, t: nat, e: EventId): Node
    requires IdleRow(s, t, e)
  {
    if s.threads[t].items[e].attempts + 1 >= MAX_ATTEMPTS then DoDropRow(s, t, e, Exhausted) else DoHoldAgain(s, t, e)
  }

  function DoTypeGroup(s: Node, t: nat, g: set<EventId>): Node
    requires Between(s, t)
  {
    Put(s.(typed := Bump(s.typed, g)), t, s.threads[t].(phase := Typed(g, 1)))
  }

  /** A directive that did not show up is typed once more at once. */
  function DoTypeAgain(s: Node, t: nat): Node
    requires IsDelivering(s, t) && s.threads[t].phase.Typed?
  {
    var g := s.threads[t].phase.group;
    Put(s.(typed := Bump(s.typed, g)), t, s.threads[t].(phase := Typed(g, 2)))
  }

  function DoJudge(s: Node, t: nat, v: Verdict): Node
    requires IsDelivering(s, t) && s.threads[t].phase.Typed?
  {
    Put(s, t, s.threads[t].(phase := Settling(s.threads[t].phase.group, v)))
  }

  /** A rejected inject has used up the row's attempts; any other row not proven may be in the pane. */
  function DoSettleDrop(s: Node, t: nat, e: EventId): Node
    requires JudgedRow(s, t, e)
  {
    var ph := s.threads[t].phase;
    Put(s.(store := s.store - {e}), t,
        Settle(s.threads[t], e, Dropped(if ph.verdict.Retryable? then Exhausted else Unproven),
               Settling(ph.group - {e}, ph.verdict)))
  }

  /** RecordRelayDelivered, first writer wins, while the held row still exists. */
  function DoSettleRecord(s: Node, t: nat, e: EventId): Node
    requires JudgedRow(s, t, e)
  {
    var th := s.threads[t];
    var receipts := if e in s.delivered then s.delivered
                    else s.delivered[e := Receipt(th.items[e].pane, th.items[e].text)];
    Put(s.(delivered := receipts), t, th.(phase := Recorded(th.phase.group - {e}, th.phase.verdict, e)))
  }

  function DoSettleDelete(s: Node, t: nat): Node
    requires IsDelivering(s, t) && s.threads[t].phase.Recorded?
  {
    var th := s.threads[t];
    Put(s.(store := s.store - {th.phase.eid}), t,
        Settle(th, th.phase.eid, Delivered, Settling(th.phase.group, th.phase.verdict)))
  }

  function DoSettleRetry(s: Node, t: nat, e: EventId): Node
    requires JudgedRow(s, t, e)
  {
    var th := s.threads[t];
    var row := th.items[e];
    Put(s.(store := s.store - {e}), t,
        th.(phase := Rehold(th.phase.group - {e}, th.phase.verdict, row.(attempts := row.attempts + 1))))
  }

  function DoReinsert(s: Node, t: nat): Node
    requires IsDelivering(s, t) && s.threads[t].phase.Rehold?
  {
    var th := s.threads[t];
    var row := th.phase.row;
    Put(HoldRow(s.(cancelled := s.cancelled - {row.eid},
                   edited := if row.eid in s.delivered then s.edited else s.edited - {row.eid}), row), t,
        Settle(th, row.eid, Reheld, Rearm(th.phase.group, th.phase.verdict)))
  }

  function DoRearmRetry(s: Node, t: nat): Node
    requires IsDelivering(s, t) && s.threads[t].phase.Rearm?
  {
    var th := s.threads[t];
    ArmPane(Put(s, t, th.(phase := Settling(th.phase.group, th.phase.verdict))), th.pane)
  }

  // the end of a release ------------------------------------------------

  function DoFinish(s: Node, t: nat): Node
    requires IsDelivering(s, t)
  {
    var th := s.threads[t];
    Put(s.(inflight := s.inflight - th.items.Keys), t, Reconciling(th.pane, th.always))
  }

  /** reconcileHeld: the pane's list is made from the store. */
  function Relisted(s: Node, p: Pane): map<Pane, set<EventId>> {
    if RowsAt(s.store, p) == {} then s.held - {p} else s.held[p := RowsAt(s.store, p)]
  }

  function NextOf(th: Thread): Thread
    requires th.Reconciling?
  {
    if th.always then Arming({th.pane}) else Rearming(th.pane)
  }

  function DoReconcile(s: Node, t: nat): Node
    requires t in s.threads && s.threads[t].Reconciling?
  {
    Put(s.(held := Relisted(s, s.threads[t].pane)), t, NextOf(s.threads[t]))
  }

  function DoRearmCheck(s: Node, t: nat): Node
    requires t in s.threads && s.threads[t].Rearming?
  {
    var p := s.threads[t].pane;
    if HeldAt(s, p) != {} then Put(s, t, Arming({p})) else End(s, t)
  }

  // crash and restart ---------------------------------------------------

  /** The rows of a release that were typed and whose verdict is not applied yet. */
  function Unsettled(th: Thread): set<EventId> {
    if !th.Delivering? then {} else th.phase.group + (if th.phase.Recorded? then {th.phase.eid} else {})
  }

  function Exposed(s: Node): set<EventId> {
    set t, e | t in s.threads && e in Unsettled(s.threads[t]) :: e
  }

  /** Memory is lost, the tables stay. */
  function DoCrash(s: Node): Node {
    s.(held := map[], waits := map[], inflight := {}, threads := map[], cut := Bump(s.cut, Exposed(s)), mode := Down)
  }

  function DoRestore(s: Node): Node {
    s.(held := map p | p in (set e | e in s.store :: s.store[e].pane) :: RowsAt(s.store, p),
       mode := Recovering(s.store.Keys, None, set e | e in s.store && s.applyDedupe && Matches(s, e)))
  }

  /** reconcileDeliveredHeld on one restored row: a row whose delivery is recorded is retired. */
  function DoRestoreRow(s: Node, e: EventId): Node
    requires s.mode.Recovering?
  {
    var retire := s.applyDedupe && Matches(s, e);
    s.(store := if retire then s.store - {e} else s.store,
       held := if retire then Without(s.held, e) else s.held,
       mode := Recovering(s.mode.left - {e}, if retire then Some(e) else s.mode.owed, s.mode.doomed))
  }

  function DoRestoreAck(s: Node): Node
    requires s.mode.Recovering? && s.mode.owed.Some?
  {
    s.(acks := Bump(s.acks, {s.mode.owed.value}), mode := Recovering(s.mode.left, None, s.mode.doomed))
  }

  /** resume: every restored pane is armed. */
  function DoRestoreDone(s: Node): Node {
    Spawn(s.(mode := Running), Arming(s.held.Keys))
  }

  /** One inject types a non-empty group that never mixes directives with other rows. */
  predicate CanType(th: Thread, g: set<EventId>)
    requires th.Delivering?
  {
    g != {} && g <= th.todo && Uniform(th.items, g)
  }

  predicate CanTypeAgain(th: Thread)
    requires th.Delivering?
  {
    th.phase.Typed? && th.phase.shots == 1 &&
    forall e | e in th.phase.group :: e in th.items && th.items[e].directive
  }

  predicate MustDrop(v: Verdict, row: Row) {
    !Proven(v, row.eid) && !Retries(v, row)
  }

  /** One step, if the state allows it. */
  function Step(s: Node, ev: Event): Option<Node> {
    match ev
    case OfferHold(row) =>
      if Fresh(s, row) && row.attempts == 0 then Some(DoOfferHold(s, row, 0)) else None
    case OfferRetry(row) =>
      if Fresh(s, row) && !row.directive && row.attempts == 1 then Some(DoOfferHold(s, row, 1)) else None
    case OfferTyped(row, shots, landed) =>
      if Fresh(s, row) && 1 <= shots <= (if row.directive then 2 else 1)
      then Some(DoOfferTyped(s, row, shots, landed)) else None
    case Replay(e) =>
      if s.mode.Running? && e in s.store then Some(DoReplay(s, e)) else None
    case ReplayRead(t) =>
      if t in s.threads && s.threads[t].Resending? then Some(DoReplayRead(s, t)) else None
    case ReplayWrite(t) =>
      if t in s.threads && s.threads[t].Replaying? then Some(DoReplayWrite(s, t)) else None
    case Edit(e, text) =>
      if s.mode.Running? && e in s.store && text != "" then Some(DoEdit(s, e, text)) else None
    case Cancel(e) =>
      if s.mode.Running? && e in s.store then Some(DoCancel(s, e)) else None
    case Resume =>
      if s.mode.Running? then Some(Spawn(s, Arming(s.held.Keys))) else None
    case Arm(t, p) =>
      if t in s.threads && s.threads[t].Arming? && p in s.threads[t].panes then Some(DoArm(s, t, p)) else None
    case WakeUp(t) =>
      if t in s.threads && s.threads[t].Wait? && !s.threads[t].cancelled
      then Some(Put(s, t, Woken(s.threads[t].pane, false))) else None
    case WaitDies(t) =>
      if t in s.threads && IsWait(s.threads[t]) && s.threads[t].cancelled then Some(End(s, t)) else None
    case TakeAll(t) =>
      if t in s.threads && s.threads[t].Woken? then Some(DoTakeAll(s, t)) else None
    case TakeWorking(t, expired) =>
      if t in s.threads && s.threads[t].Woken? then Some(DoTakeWorking(s, t, expired)) else None
    case DropRow(t, e) =>
      if IdleRow(s, t, e) then Some(DoDropRow(s, t, e, LeaseEnded)) else None
    case LeaveRow(t, e) =>
      if IdleRow(s, t, e) then Some(DoLeaveRow(s, t, e)) else None
    case Unverifiable(t, e) =>
      if IdleRow(s, t, e) then Some(DoUnverifiable(s, t, e)) else None
    case TypeGroup(t, g) =>
      if Between(s, t) && CanType(s.threads[t], g) then Some(DoTypeGroup(s, t, g)) else None
    case TypeAgain(t) =>
      if IsDelivering(s, t) && CanTypeAgain(s.threads[t]) then Some(DoTypeAgain(s, t)) else None
    case Judge(t, v) =>
      if IsDelivering(s, t) && s.threads[t].phase.Typed? && (v.Retryable? ==> 1 <= v.maxAttempts <= MAX_ATTEMPTS)
      then Some(DoJudge(s, t, v)) else None
    case SettleDrop(t, e) =>
      if JudgedRow(s, t, e) && MustDrop(s.threads[t].phase.verdict, s.threads[t].items[e])
      then Some(DoSettleDrop(s, t, e)) else None
    case SettleRecord(t, e) =>
      if JudgedRow(s, t, e) && Proven(s.threads[t].phase.verdict, e) then Some(DoSettleRecord(s, t, e)) else None
    case SettleDelete(t) =>
      if IsDelivering(s, t) && s.threads[t].phase.Recorded? then Some(DoSettleDelete(s, t)) else None
    case SettleRetry(t, e) =>
      if JudgedRow(s, t, e) && Retries(s.threads[t].phase.verdict, s.threads[t].items[e])
      then Some(DoSettleRetry(s, t, e)) else None
    case Reinsert(t) =>
      if IsDelivering(s, t) && s.threads[t].phase.Rehold? then Some(DoReinsert(s, t)) else None
    case RearmRetry(t) =>
      if IsDelivering(s, t) && s.threads[t].phase.Rearm? then Some(DoRearmRetry(s, t)) else None
    case Finish(t) =>
      if Between(s, t) && s.threads[t].todo == {} then Some(DoFinish(s, t)) else None
    case Reconcile(t) =>
      if t in s.threads && s.threads[t].Reconciling? then Some(DoReconcile(s, t)) else None
    case RearmCheck(t) =>
      if t in s.threads && s.threads[t].Rearming? then Some(DoRearmCheck(s, t)) else None
    case Crash => Some(DoCrash(s))
    case Restore =>
      if s.mode.Down? then Some(DoRestore(s)) else None
    case RestoreRow(e) =>
      if s.mode.Recovering? && e in s.mode.left && s.mode.owed.None? then Some(DoRestoreRow(s, e)) else None
    case RestoreAck =>
      if s.mode.Recovering? && s.mode.owed.Some? then Some(DoRestoreAck(s)) else None
    case RestoreDone =>
      if s.mode.Recovering? && s.mode.left == {} && s.mode.owed.None? then Some(DoRestoreDone(s)) else None
  }

  predicate Enabled(s: Node, ev: Event) { Step(s, ev).Some? }

  function Apply(s: Node, ev: Event): Node
    requires Enabled(s, ev)
  {
    Step(s, ev).value
  }

  // ---------------------------------------------------------------- invariants

  predicate RowShape(seen: map<EventId, bool>, e: EventId, row: Row) {
    row.eid == e && e in seen && seen[e] == row.directive && row.attempts < MAX_ATTEMPTS
  }

  predicate PhaseShape(th: Thread)
    requires th.Delivering? && th.todo <= th.items.Keys
  {
    th.phase.group <= th.todo && Uniform(th.items, th.phase.group) &&
    match th.phase
    case Settling(_, v) => v.Retryable? ==> v.maxAttempts <= MAX_ATTEMPTS
    case Typed(g, shots) => 1 <= shots <= 2 && (shots == 2 ==> forall e | e in g :: th.items[e].directive)
    case Recorded(g, v, e) => e in th.todo && e !in g && (v.Retryable? ==> v.maxAttempts <= MAX_ATTEMPTS)
    case Rehold(g, v, row) =>
      row.eid in th.todo && row.eid !in g && row.attempts < MAX_ATTEMPTS &&
      row == th.items[row.eid].(attempts := th.items[row.eid].attempts + 1) &&
      (v.Retryable? ==> v.maxAttempts <= MAX_ATTEMPTS)
    case Rearm(_, v) => v.Retryable? ==> v.maxAttempts <= MAX_ATTEMPTS
  }

  predicate ThreadShape(seen: map<EventId, bool>, th: Thread) {
    th.Delivering? ==>
      th.todo <= th.items.Keys && th.fates.Keys == th.items.Keys - th.todo &&
      (forall e | e in th.items :: RowShape(seen, e, th.items[e]) && th.items[e].pane == th.pane) &&
      PhaseShape(th)
  }

  /** A registered wait waits on the pane it is registered for. */
  predicate WaitsShape(s: Node) {
    (forall t | t in s.threads :: t < s.next) &&
    (forall p | p in s.waits :: s.waits[p] < s.next &&
       (s.waits[p] in s.threads && IsWait(s.threads[s.waits[p]]) ==> s.threads[s.waits[p]].pane == p))
  }

  predicate Shape(s: Node) {
    WaitsShape(s) &&
    (forall e | e in s.store :: RowShape(s.seen, e, s.store[e])) &&
    (forall t | t in s.threads :: ThreadShape(s.seen, s.threads[t])) &&
    s.delivered.Keys <= s.seen.Keys && s.cancelled <= s.seen.Keys && s.cancelled !! s.store.Keys &&
    (!s.mode.Running? ==> s.threads == map[] && s.inflight == {})
  }
}
