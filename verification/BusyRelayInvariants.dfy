/** What every reachable state of the busy relay satisfies. */
module BusyRelayInvariants {
  import opened BusyRelay
  import opened Options

  // ---------------------------------------------------------------- who owns a row

  predicate Owner(s: Node, t: nat, e: EventId) {
    IsDelivering(s, t) && e in s.threads[t].items
  }

  ghost predicate Ownership(s: Node) {
    (forall t, e :: Owner(s, t, e) ==> e in s.inflight) &&
    (forall e | e in s.inflight :: exists t :: Owner(s, t, e)) &&
    (forall t, u, e :: Owner(s, t, e) && Owner(s, u, e) ==> t == u)
  }

  // ---------------------------------------------------------------- who arms a pane

  predicate Reconciles(th: Thread, p: Pane) {
    (th.Delivering? || th.Reconciling?) && th.pane == p
  }

  /** A live wait on the pane, or an operation that still owes it an arm. */
  predicate Cares(th: Thread, p: Pane) {
    match th
    case Wait(q, c) => q == p && !c
    case Woken(q, c) => q == p && !c
    case Delivering(q, _, _, _, _, _) => q == p
    case Reconciling(q, _) => q == p
    case Rearming(q) => q == p
    case Arming(ps) => p in ps
    case Resending(q) => q == p
    case Replaying(q, _) => q == p
  }

  predicate CaredBy(s: Node, t: nat, p: Pane) {
    t in s.threads && Cares(s.threads[t], p)
  }

  predicate ReconciledBy(s: Node, t: nat, p: Pane) {
    t in s.threads && Reconciles(s.threads[t], p)
  }

  predicate Loose(s: Node, e: EventId) {
    e in s.store && e !in s.inflight
  }

  /** The pane's list names the row, or, with `each` off, any row at all: an arm starts a wait for any list but the empty one. */
  predicate InList(s: Node, p: Pane, e: EventId, each: bool) {
    if each then e in HeldAt(s, p) else HeldAt(s, p) != {}
  }

  /** ... or a release will make the list from the store. */
  ghost predicate RegisteredAt(s: Node, p: Pane, e: EventId, each: bool) {
    InList(s, p, e, each) || exists t :: ReconciledBy(s, t, p)
  }

  ghost predicate CoveredPane(s: Node, p: Pane) {
    exists t :: CaredBy(s, t, p)
  }

  ghost predicate Registered(s: Node, each: bool) {
    s.mode.Running? ==> forall e | Loose(s, e) :: RegisteredAt(s, s.store[e].pane, e, each)
  }

  ghost predicate Covered(s: Node) {
    s.mode.Running? ==> forall e | Loose(s, e) :: CoveredPane(s, s.store[e].pane)
  }

  /** Every loose row is registered, and something will wake for its pane. */
  ghost predicate Awake(s: Node, each: bool) {
    Registered(s, each) && Covered(s)
  }

  // ---------------------------------------------------------------- rows in delivery

  /** The stored row is this one, but for a text an operator gave it meanwhile. */
  predicate Agrees(s: Node, row: Row) {
    row.eid in s.store && s.store[row.eid] == row.(text := s.store[row.eid].text) &&
    (row.eid !in s.edited ==> s.store[row.eid].text == row.text)
  }

  function Older(row: Row): Row { row.(attempts := row.attempts + 1) }

  predicate FateHolds(s: Node, row: Row, fate: Fate) {
    match fate
    case Delivered => row.eid !in s.store && row.eid in s.delivered && Count(s.typed, row.eid) >= 1
    case Dropped(why) => row.eid !in s.store && (why == Unproven ==> Count(s.typed, row.eid) >= 1)
    case Reheld => row.eid !in s.cancelled ==> Agrees(s, Older(row))
    case Left => row.eid !in s.cancelled ==> Agrees(s, row)
  }

  /** Where one row of a release stands. */
  datatype Place =
    | Unknown
    | Resting                // not typed by this release yet
    | Out(shots: nat)        // part of the inject that is out
    | Judged                 // its verdict is still to be applied
    | Noted                  // recorded as delivered, not yet deleted
    | Lifted                 // deleted, about to be held again
    | Ended(fate: Fate)

  predicate InRehold(th: Thread, e: EventId)
    requires th.Delivering?
  {
    th.phase.Rehold? && th.phase.row.eid == e
  }

  predicate InRecord(th: Thread, e: EventId)
    requires th.Delivering?
  {
    th.phase.Recorded? && th.phase.eid == e
  }

  function PlaceOf(th: Thread, e: EventId): Place
    requires th.Delivering?
  {
    if e !in th.todo then (if e in th.fates then Ended(th.fates[e]) else Unknown)
    else if e in th.phase.group then (if th.phase.Typed? then Out(th.phase.shots) else Judged)
    else if InRecord(th, e) then Noted
    else if InRehold(th, e) then Lifted
    else Resting
  }

  predicate StoredUnlessCancelled(s: Node, row: Row) {
    row.eid !in s.cancelled ==> Agrees(s, row)
  }

  /** What the tables say about a row of a release that stands here. */
  predicate PlaceFacts(s: Node, row: Row, place: Place) {
    match place
    case Unknown => true
    case Resting => StoredUnlessCancelled(s, row)
    case Out(_) => StoredUnlessCancelled(s, row) && Count(s.typed, row.eid) >= 1
    case Judged => StoredUnlessCancelled(s, row) && Count(s.typed, row.eid) >= 1
    case Noted => StoredUnlessCancelled(s, row) && Count(s.typed, row.eid) >= 1 && row.eid in s.delivered
    case Lifted => row.eid !in s.store
    case Ended(fate) => FateHolds(s, row, fate)
  }

  ghost predicate Facts(s: Node) {
    forall t, e | Owner(s, t, e) ::
      s.threads[t].items[e].eid == e && PlaceFacts(s, s.threads[t].items[e], PlaceOf(s.threads[t], e))
  }

  // ---------------------------------------------------------------- how often a row is typed

  /** No more than its attempts, and one inject for each crash that cut one off. */
  predicate Rest(s: Node, row: Row) {
    Count(s.typed, row.eid) <= (if row.directive then 2 * Count(s.cut, row.eid) else row.attempts + Count(s.cut, row.eid))
  }

  predicate Spent(s: Node, row: Row) {
    Count(s.typed, row.eid) <=
    (if row.directive then 2 * Count(s.cut, row.eid) + 2 else row.attempts + Count(s.cut, row.eid) + 1)
  }

  /** How often a row of a release that stands here may have been typed. */
  predicate PlaceTyped(s: Node, row: Row, place: Place) {
    match place
    case Unknown => true
    case Resting => Rest(s, row)
    case Out(shots) =>
      if row.directive then Count(s.typed, row.eid) <= 2 * Count(s.cut, row.eid) + shots else Spent(s, row)
    case Judged => Spent(s, row)
    case Noted => Spent(s, row)
    case Lifted => Rest(s, Older(row))
    case Ended(fate) => (fate.Left? ==> Rest(s, row)) && (fate.Reheld? ==> Rest(s, Older(row)))
  }

  /** Over the life of an event: two injects of a directive, three of another row, and as many again as crashes cut off. */
  predicate WithinLife(s: Node, e: EventId) {
    e in s.typed ==>
      e in s.seen && s.typed[e] <= (if s.seen[e] then 2 + 2 * Count(s.cut, e) else 3 + Count(s.cut, e))
  }

  ghost predicate TypedBound(s: Node) {
    (forall e | Loose(s, e) :: Rest(s, s.store[e])) &&
    (forall t, e | Owner(s, t, e) :: PlaceTyped(s, s.threads[t].items[e], PlaceOf(s.threads[t], e))) &&
    (forall e :: WithinLife(s, e))
  }

  // ---------------------------------------------------------------- receipts and recovery

  /** The record of a row names its pane and the text its release took; another text of the row is an edit. */
  predicate ReceiptOf(s: Node, row: Row) {
    row.eid in s.delivered ==>
      row.eid in s.taken && s.delivered[row.eid] == Receipt(row.pane, s.taken[row.eid]) &&
      (row.text == s.taken[row.eid] || row.eid in s.edited)
  }

  predicate TakenAs(s: Node, row: Row) {
    ReceiptOf(s, row) && row.eid in s.taken && (row.eid !in s.delivered ==> row.text == s.taken[row.eid])
  }

  predicate RecordedBy(s: Node, t: nat, e: EventId) {
    IsDelivering(s, t) && InRecord(s.threads[t], e)
  }

  ghost predicate Receipts(s: Node) {
    (forall e | e in s.store :: ReceiptOf(s, s.store[e])) &&
    (forall t, e | Owner(s, t, e) :: TakenAs(s, s.threads[t].items[e])) &&
    (s.applyDedupe && s.mode.Running? ==>
       (forall e | e in s.store && e in s.delivered && e !in s.edited :: exists t :: RecordedBy(s, t, e)) &&
       (forall t, e | Owner(s, t, e) && e in s.threads[t].todo && e in s.delivered && e !in s.edited :: RecordedBy(s, t, e)))
  }

  ghost predicate Recovery(s: Node) {
    (forall e | e in s.acks :: s.acks[e] == 1 && e in s.seen && e !in s.store && e !in s.inflight) &&
    (s.mode.Recovering? ==>
       s.mode.left <= s.store.Keys && (forall e | e in s.store :: e in HeldAt(s, s.store[e].pane)) &&
       (s.mode.owed.Some? ==> s.mode.owed.value !in s.store && s.mode.owed.value !in s.acks && s.mode.owed.value in s.seen) &&
       (s.applyDedupe ==> forall e | e in s.store && e in s.delivered && e !in s.edited :: e in s.mode.left) &&
       (forall e | e in s.mode.doomed ::
          (e in s.mode.left && s.applyDedupe && Matches(s, e)) || s.mode.owed == Some(e) || e in s.acks))
  }

  /** What every step keeps. */
  ghost predicate Core(s: Node) {
    Shape(s) && Ownership(s) && Facts(s) && TypedBound(s) && Receipts(s) && Recovery(s)
  }
}
