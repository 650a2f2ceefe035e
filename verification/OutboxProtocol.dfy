/**
 * Any number of drainers carrying owed notifications to the hub. Every step can be the
 * last one a drainer makes, replies can be lost, and the hub may take a request after
 * its sender is gone.
 */
module OutboxProtocol {
  import opened Options

  type EventId = string

  /** A reply as it came over the wire. */
  datatype Reply =
    | Created(id: int, echo: EventId)
    | Conflict(duplicate: bool, id: int)
    | Other

  /** postRelayEvent: the row id, or None for a named error. */
  function Receipt(e: EventId, r: Reply): Option<int> {
    match r
    case Created(id, echo) => if echo == e && id >= 1 then Some(id) else None
    case Conflict(duplicate, id) => if duplicate then Some(id) else None
    case Other => None
  }

  datatype Status = Owed | SentAs(id: int)

  datatype Stage =
    | Holding(rows: set<EventId>)
    | Waiting(rows: set<EventId>, e: EventId)
    | Marking(rows: set<EventId>, e: EventId, id: int)

  datatype World = World(outbox: map<EventId, Status>, hub: map<EventId, int>, drainers: map<nat, Stage>, posted: set<EventId>)

  datatype Event =
    | Enqueue(e: EventId)
    | List(d: nat, rows: set<EventId>)
    | Post(d: nat, e: EventId)
    | Accept(e: EventId, id: int)                // the hub stores a request, now or long after
    | Answer(d: nat, reply: Reply)
    | Mark(d: nat, applied: bool)                // the mark may be lost on its way
    | Die(d: nat)

  /** The hub's word: a positive id is the row of the event the reply names, or of the posted one for a duplicate. */
  predicate Truthful(w: World, e: EventId, r: Reply) {
    match r
    case Created(id, echo) => id >= 1 ==> echo in w.hub && w.hub[echo] == id
    case Conflict(duplicate, id) => duplicate && id >= 1 ==> e in w.hub && w.hub[e] == id
    case Other => true
  }

  predicate Enabled(w: World, ev: Event) {
    match ev
    case Enqueue(e) => e !in w.outbox
    case List(d, rows) => forall e | e in rows :: e in w.outbox && w.outbox[e].Owed?
    case Post(d, e) => d in w.drainers && w.drainers[d].Holding? && e in w.drainers[d].rows
    case Accept(e, id) => e in w.posted && e !in w.hub && id >= 1
    case Answer(d, r) => d in w.drainers && w.drainers[d].Waiting? && Truthful(w, w.drainers[d].e, r)
    case Mark(d, _) => d in w.drainers && w.drainers[d].Marking?
    case Die(d) => d in w.drainers
  }

  function Apply(w: World, ev: Event): World
    requires Enabled(w, ev)
  {
    match ev
    case Enqueue(e) => w.(outbox := w.outbox[e := Owed])
    case List(d, rows) => w.(drainers := w.drainers[d := Holding(rows)])
    case Post(d, e) => w.(posted := w.posted + {e}, drainers := w.drainers[d := Waiting(w.drainers[d].rows - {e}, e)])
    case Accept(e, id) => w.(hub := w.hub[e := id])
    case Answer(d, r) =>
      var x := w.drainers[d];
      var receipt := Receipt(x.e, r);
      w.(drainers := w.drainers[d := if receipt.Some? && receipt.value >= 1 then Marking(x.rows, x.e, receipt.value) else Holding(x.rows)])
    case Mark(d, applied) =>
      var x := w.drainers[d];
      w.(outbox := if applied && x.e in w.outbox && w.outbox[x.e].Owed? then w.outbox[x.e := SentAs(x.id)] else w.outbox,
         drainers := w.drainers[d := Holding(x.rows)])
    case Die(d) => w.(drainers := w.drainers - {d})
  }

  predicate StageOK(w: World, s: Stage) {
    s.rows <= w.outbox.Keys &&
    (s.Waiting? ==> s.e in w.posted) &&
    (s.Marking? ==> s.e in w.posted && s.id >= 1 && s.e in w.hub && w.hub[s.e] == s.id)
  }

  /** A row counts as sent only with the hub's own positive row id, and nothing outside the outbox was ever posted. */
  ghost predicate Inv(w: World) {
    (forall e | e in w.outbox && w.outbox[e].SentAs? :: w.outbox[e].id >= 1 && e in w.hub && w.hub[e] == w.outbox[e].id) &&
    w.posted <= w.outbox.Keys &&
    forall d | d in w.drainers :: StageOK(w, w.drainers[d])
  }

  lemma Keep(w: World, ev: Event)
    requires Inv(w) && Enabled(w, ev)
    ensures Inv(Apply(w, ev))
  {
    var w' := Apply(w, ev);
    forall d | d in w'.drainers ensures StageOK(w', w'.drainers[d]) {
      if d in w.drainers { assert StageOK(w, w.drainers[d]); }
    }
  }

  ghost predicate Legal(w: World, evs: seq<Event>)
    decreases |evs|
  {
    evs == [] || (Enabled(w, evs[0]) && Legal(Apply(w, evs[0]), evs[1..]))
  }

  ghost function Run(w: World, evs: seq<Event>): World
    requires Legal(w, evs)
    decreases |evs|
  {
    if evs == [] then w else Run(Apply(w, evs[0]), evs[1..])
  }

  lemma {:induction false} RunInv(w: World, evs: seq<Event>)
    requires Inv(w) && Legal(w, evs)
    ensures Inv(Run(w, evs))
    decreases |evs|
  {
    if evs != [] {
      Keep(w, evs[0]);
      RunInv(Apply(w, evs[0]), evs[1..]);
    }
  }

  /** A hub that starts with rows of its own, and an outbox that owes everything in it. */
  function Start(owed: set<EventId>, hub: map<EventId, int>): World {
    World(map e | e in owed :: Owed, hub, map[], {})
  }

  lemma StartInv(owed: set<EventId>, hub: map<EventId, int>)
    ensures Inv(Start(owed, hub))
  {
  }

  lemma {:induction false} StaysOwed(w: World, evs: seq<Event>, e: EventId)
    requires Inv(w) && Legal(w, evs) && e in w.outbox
    ensures var end := Run(w, evs);
      e in end.outbox && (end.outbox[e].Owed? || (e in end.hub && end.hub[e] == end.outbox[e].id >= 1))
    decreases |evs|
  {
    if evs != [] {
      Keep(w, evs[0]);
      StaysOwed(Apply(w, evs[0]), evs[1..], e);
    }
  }

  /** Every row that was ever in the outbox is still unsent, or the hub holds it under the positive id the outbox recorded. */
  lemma NothingLost(owed: set<EventId>, hub: map<EventId, int>, before: seq<Event>, after: seq<Event>, e: EventId)
    requires Legal(Start(owed, hub), before) && Legal(Run(Start(owed, hub), before), after)
    requires e in Run(Start(owed, hub), before).outbox
    ensures var end := Run(Run(Start(owed, hub), before), after);
      e in end.outbox && (end.outbox[e].Owed? || (e in end.hub && end.hub[e] == end.outbox[e].id >= 1))
  {
    StartInv(owed, hub);
    RunInv(Start(owed, hub), before);
    StaysOwed(Run(Start(owed, hub), before), after, e);
  }

  // ---------------------------------------------------------------- from a reply to the mark

  /**
   * A reply leads to the mark with row id n exactly when it names a positive n for the posted event: created
   * for that very event, or already there. After any other reply the drainer goes on and the row stays owed.
   */
  lemma AnswerExactly(w: World, d: nat, r: Reply, n: int)
    requires Enabled(w, Answer(d, r))
    ensures var x, w' := w.drainers[d], Apply(w, Answer(d, r));
      w' == w.(drainers := w'.drainers) && d in w'.drainers && w'.drainers - {d} == w.drainers - {d} &&
      (w'.drainers[d] == Marking(x.rows, x.e, n) <==> n >= 1 && (r == Created(n, x.e) || r == Conflict(true, n))) &&
      (w'.drainers[d] == Holding(x.rows) <==>
         !(exists m: int :: m >= 1 && (r == Created(m, x.e) || r == Conflict(true, m))))
  {
    var e := w.drainers[d].e;
    if r.Created? && r.echo == e && r.id >= 1 { assert r == Created(r.id, e); }
    if r.Conflict? && r.duplicate && r.id >= 1 { assert r == Conflict(true, r.id); }
  }

  /** A mark that arrives makes an owed row sent under its id, and changes no other row. */
  lemma MarkExactly(w: World, d: nat, applied: bool, e: EventId)
    requires Enabled(w, Mark(d, applied)) && e in w.outbox
    ensures var x, w' := w.drainers[d], Apply(w, Mark(d, applied));
      w'.outbox.Keys == w.outbox.Keys && w'.hub == w.hub && d in w'.drainers && w'.drainers[d] == Holding(x.rows) &&
      w'.outbox[e] == (if applied && e == x.e && w.outbox[e] == Owed then SentAs(x.id) else w.outbox[e])
    ensures Inv(w) ==> w.drainers[d].e in w.outbox
  {
    if Inv(w) { assert StageOK(w, w.drainers[d]); }
  }

  lemma {:induction false} Extend(w: World, evs: seq<Event>, ev: Event)
    requires Legal(w, evs) && Enabled(Run(w, evs), ev)
    ensures Legal(w, evs + [ev]) && Run(w, evs + [ev]) == Apply(Run(w, evs), ev)
    decreases |evs|
  {
    if evs == [] {
      assert (evs + [ev])[1..] == [];
    } else {
      Extend(Apply(w, evs[0]), evs[1..], ev);
      assert (evs + [ev])[1..] == evs[1..] + [ev];
    }
  }

  /** Drainer d has posted the owed row and waits for the reply. */
  predicate Asked(w: World, d: nat, e: EventId) {
    e in w.outbox && w.outbox[e] == Owed && e in w.posted && d in w.drainers && w.drainers[d] == Waiting({}, e)
  }

  lemma AskFor(w: World, evs: seq<Event>, d: nat, e: EventId) returns (more: seq<Event>)
    requires Legal(w, evs) && e in Run(w, evs).outbox && Run(w, evs).outbox[e] == Owed
    ensures more == evs + [List(d, {e})] + [Post(d, e)] && Legal(w, more) && Asked(Run(w, more), d, e)
    ensures Run(w, more).hub == Run(w, evs).hub
  {
    Extend(w, evs, List(d, {e}));
    more := evs + [List(d, {e})];
    Extend(w, more, Post(d, e));
    more := more + [Post(d, e)];
    assert {e} - {e} == {};
  }

  lemma SettleWith(w: World, evs: seq<Event>, d: nat, e: EventId, r: Reply, n: int) returns (more: seq<Event>)
    requires Legal(w, evs) && Asked(Run(w, evs), d, e) && n >= 1 && e in Run(w, evs).hub && Run(w, evs).hub[e] == n
    requires r == Created(n, e) || r == Conflict(true, n)
    ensures more == evs + [Answer(d, r)] + [Mark(d, true)] && Legal(w, more)
    ensures e in Run(w, more).outbox && Run(w, more).outbox[e] == SentAs(n)
  {
    AnswerExactly(Run(w, evs), d, r, n);
    Extend(w, evs, Answer(d, r));
    more := evs + [Answer(d, r)];
    Extend(w, more, Mark(d, true));
    more := more + [Mark(d, true)];
  }

  /** Whatever happened before, an owed row can still be brought to sent: by a first post, or by one that finds it there. */
  lemma CanBeSent(w: World, d: nat, e: EventId, n: int) returns (evs: seq<Event>)
    requires e in w.outbox && w.outbox[e] == Owed && n >= 1 && (e in w.hub ==> w.hub[e] == n)
    ensures Legal(w, evs) && e in Run(w, evs).outbox && Run(w, evs).outbox[e] == SentAs(n)
  {
    evs := AskFor(w, [], d, e);
    if e in w.hub {
      evs := SettleWith(w, evs, d, e, Conflict(true, n), n);
    } else {
      Extend(w, evs, Accept(e, n));
      evs := evs + [Accept(e, n)];
      evs := SettleWith(w, evs, d, e, Created(n, e), n);
    }
  }

  /** A drainer dies between the hub's row and its mark; the next one is told of the duplicate and marks the row. */
  lemma MarkedAfterCrash(e: EventId, n: int) returns (evs: seq<Event>)
    requires n >= 1
    ensures evs == [] + [List(0, {e})] + [Post(0, e)] + [Accept(e, n)] + [Die(0)] + [List(1, {e})] + [Post(1, e)] +
                   [Answer(1, Conflict(true, n))] + [Mark(1, true)]
    ensures Legal(Start({e}, map[]), evs)
    ensures e in Run(Start({e}, map[]), evs).outbox && Run(Start({e}, map[]), evs).outbox[e] == SentAs(n)
  {
    var w := Start({e}, map[]);
    evs := AskFor(w, [], 0, e);
    Extend(w, evs, Accept(e, n));
    evs := evs + [Accept(e, n)];
    Extend(w, evs, Die(0));
    evs := evs + [Die(0)];
    evs := AskFor(w, evs, 1, e);
    evs := SettleWith(w, evs, 1, e, Conflict(true, n), n);
  }

  /** Once sent, a row keeps its hub row id for good. */
  lemma {:induction false} SentStays(w: World, evs: seq<Event>, e: EventId)
    requires Legal(w, evs) && e in w.outbox && w.outbox[e].SentAs?
    ensures e in Run(w, evs).outbox && Run(w, evs).outbox[e] == w.outbox[e]
    decreases |evs|
  {
    if evs != [] {
      SentStays(Apply(w, evs[0]), evs[1..], e);
    }
  }

  /** What drainers post, and what the hub holds because of them, comes from the outbox. */
  lemma {:induction false} OnlyOwedPosted(w: World, evs: seq<Event>, e: EventId)
    requires Inv(w) && Legal(w, evs) && e in Run(w, evs).hub && e !in w.hub
    ensures e in Run(w, evs).outbox
    decreases |evs|
  {
    RunInv(w, evs);
    if evs != [] {
      var w' := Apply(w, evs[0]);
      Keep(w, evs[0]);
      if e in w'.hub { OutboxGrows(w', evs[1..], e); } else { OnlyOwedPosted(w', evs[1..], e); }
    }
  }

  lemma {:induction false} OutboxGrows(w: World, evs: seq<Event>, e: EventId)
    requires Legal(w, evs) && e in w.outbox
    ensures e in Run(w, evs).outbox
    decreases |evs|
  {
    if evs != [] { OutboxGrows(Apply(w, evs[0]), evs[1..], e); }
  }
}
