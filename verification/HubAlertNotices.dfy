/** When a notification is queued, sent and recorded, told from what happened to its incident. */
module HubAlertNotices {
  import opened HubAlert
  import opened HubAlertProofs
  import opened Options

  /** A notification of this kind for this generation is on its way. */
  ghost predicate InFlight(w: Watch, k: Kind, g: nat) { exists f :: Alive(w, f, k, g) }

  /** The present incident still wants this notification. */
  predicate Wanted(w: Watch, k: Kind) {
    var g := w.state.incidentGeneration;
    match k
    case First => w.state.active
    case Reminder => w.state.active && g !in w.cleared
    case Recovery => g in w.closed && g !in w.dropped && g !in w.recovered
  }

  lemma RecoveryOwed(w: Watch)
    requires Accounts(w)
    ensures w.state.recoveryNeeded <==> Wanted(w, Recovery)
  {
  }

  lemma Reachable(c: Config, es: seq<Event>)
    requires Legal(c, IDLE, es)
    ensures Inv(Run(c, IDLE, es))
  {
    IdleInv();
    RunInv(c, IDLE, es);
  }

  // ---------------------------------------------------------------- the check before a send

  lemma CheckStep(w: Watch, f: nat)
    requires Fits(w) && Recorded(w) && Accounts(w) && f in w.flights
    ensures var x, w' := w.flights[f], DoCheck(w, f);
      if x.generation == w.state.incidentGeneration && Wanted(w, x.kind)
      then w' == w.(flights := w.flights[f := x.(stage := Sending)]) else w'.flights == w.flights - {f}
  {
    RecoveryOwed(w);
    assert FlightFits(w.state, w.flights[f]);
  }

  /**
   * A queued notification is sent exactly when its incident is the present one and still wants it: a first
   * notice while it is active, a reminder while it is active and saw no healthy observation, a recovery once
   * it closed with its notice recorded, and neither lost it to a problem observation nor had it.
   */
  lemma CheckExactly(c: Config, es: seq<Event>, f: nat)
    requires Legal(c, IDLE, es) && Enabled(Run(c, IDLE, es), Check(f))
    ensures var w := Run(c, IDLE, es); var x, w' := w.flights[f], DoCheck(w, f);
      if x.generation == w.state.incidentGeneration && Wanted(w, x.kind)
      then w' == w.(flights := w.flights[f := x.(stage := Sending)]) else w'.flights == w.flights - {f}
  {
    Reachable(c, es);
    CheckStep(Run(c, IDLE, es), f);
  }

  // ---------------------------------------------------------------- the commit after it

  lemma FinishStep(w: Watch, f: nat)
    requires Recorded(w) && Accounts(w) && f in w.flights && w.flights[f].stage.Sent?
    ensures var x, w' := w.flights[f], DoFinish(w, f);
      var counts := x.stage.ok && x.generation == w.state.incidentGeneration && Wanted(w, x.kind);
      w'.flights == w.flights - {f} &&
      w'.recorded == (if counts && x.kind != Recovery then w.recorded[x.generation := x.stage.at] else w.recorded) &&
      w'.recovered == (if counts && x.kind == Recovery then w.recovered + {x.generation} else w.recovered)
  {
    if w.flights[f].kind == Recovery && w.state.active { assert !Wanted(w, Recovery); }
    RecoveryOwed(w);
  }

  /** A send that succeeded is recorded exactly when its incident is the present one and still wants it. */
  lemma FinishExactly(c: Config, es: seq<Event>, f: nat)
    requires Legal(c, IDLE, es) && Enabled(Run(c, IDLE, es), Finish(f))
    ensures var w := Run(c, IDLE, es); var x, w' := w.flights[f], DoFinish(w, f);
      var counts := x.stage.ok && x.generation == w.state.incidentGeneration && Wanted(w, x.kind);
      w'.flights == w.flights - {f} &&
      w'.recorded == (if counts && x.kind != Recovery then w.recorded[x.generation := x.stage.at] else w.recorded) &&
      w'.recovered == (if counts && x.kind == Recovery then w.recovered + {x.generation} else w.recovered)
  {
    Reachable(c, es);
    FinishStep(Run(c, IDLE, es), f);
  }

  // ---------------------------------------------------------------- what an observation queues

  /** The observation queued a notification of this kind. */
  predicate Queues(w: Watch, w': Watch, k: Kind) { w.next in w'.flights && w'.flights[w.next].kind == k }

  /** Half an hour, in nanoseconds. */
  const HALF_HOUR: int := 30 * 60 * 1_000_000_000

  /** The notification this kind of incident owes after the observation. */
  ghost predicate Due(c: Config, w: Watch, k: Kind, now: int) {
    var g := w.state.incidentGeneration;
    c.notifier &&
    match k
    case First => w.state.active && g !in w.recorded
    case Reminder => c.node && w.state.active && g !in w.cleared && g in w.recorded && now >= w.recorded[g] + HALF_HOUR
    case Recovery => g in w.closed && g !in w.dropped && g !in w.recovered
  }

  /** The pending flag as the observation leaves it, before it queues anything, stands for a flight. */
  lemma PendingMeans(c: Config, w: Watch, o: Observation, k: Kind)
    requires Ids(w) && Fits(w)
    ensures var s := Noted(c, w.state, o);
      (PendingFor(s, k) ==> InFlight(w, k, s.incidentGeneration)) &&
      (InFlight(w, k, s.incidentGeneration) ==>
         PendingFor(s, k) || (k == Reminder && (s.remindersStopped || !s.active)))
  {
    var s := Noted(c, w.state, o);
    if Opens(c, w.state, o) {
      assert forall f | f in w.flights :: w.flights[f].generation != s.incidentGeneration;
    } else {
      if PendingFor(s, k) { assert PendingFor(w.state, k) && Flying(w, k); }
      forall f | Alive(w, f, k, s.incidentGeneration) ensures FlightFits(w.state, w.flights[f]) {}
    }
  }

  lemma OwedMeans(c: Config, w: Watch, o: Observation, k: Kind)
    requires Inv(w)
    ensures var w' := DoObserve(c, w, o); var g := w'.state.incidentGeneration;
      Owed(c, Noted(c, w.state, o), o.now) == Some(k) <==> Due(c, w', k, o.now) && !InFlight(w, k, g)
  {
    var w', s := DoObserve(c, w, o), Noted(c, w.state, o);
    KeepObserve(c, w, o);
    PendingMeans(c, w, o, k);
    RecoveryOwed(w');
    SameButPending(c, w, o);
  }

  lemma SameButPending(c: Config, w: Watch, o: Observation)
    ensures var s, t := Noted(c, w.state, o), DoObserve(c, w, o).state;
      t == s.(incidentPending := t.incidentPending, reminderPending := t.reminderPending, recoveryPending := t.recoveryPending)
  {
  }

  /** An observation queues a notification exactly when its incident then owes it and none is on its way; never two at once. */
  lemma QueuedExactly(c: Config, es: seq<Event>, o: Observation, k: Kind)
    requires Legal(c, IDLE, es)
    ensures var w := Run(c, IDLE, es); var w' := Apply(c, w, Observe(o)); var g := w'.state.incidentGeneration;
      (Queues(w, w', k) <==> Due(c, w', k, o.now) && !InFlight(w, k, g)) &&
      (Queues(w, w', k) ==> w'.flights[w.next].generation == g && w'.flights[w.next].createdAt == o.now && w'.flights[w.next].stage.Queued?) &&
      w'.flights - {w.next} == w.flights
  {
    Reachable(c, es);
    var w := Run(c, IDLE, es);
    OwedMeans(c, w, o, k);
    QueueStep(c, w, o, k);
  }

  lemma QueueStep(c: Config, w: Watch, o: Observation, k: Kind)
    requires Ids(w)
    ensures var w' := DoObserve(c, w, o);
      (Queues(w, w', k) <==> Owed(c, Noted(c, w.state, o), o.now) == Some(k)) &&
      (Queues(w, w', k) ==> w'.flights[w.next] == Flight(k, w'.state.incidentGeneration,
         Cause(w'.state.reason, w'.state.check), o.now, Queued)) &&
      w'.flights - {w.next} == w.flights
  {
    assert w.next !in w.flights;
  }

  // ---------------------------------------------------------------- a whole incident

  /** Opened, told, recorded, closed, and its recovery sent and recorded. */
  lemma RecoveryTold() returns (es: seq<Event>)
    ensures es == [Observe(Problem(0))] + [Check(0)] + [Send(0, true, 0)] + [Finish(0)] + [Observe(HEALTHY)] +
                  [Check(1)] + [Send(1, true, 0)] + [Finish(1)]
    ensures Legal(ONE, IDLE, es)
    ensures var w := Run(ONE, IDLE, es);
      Notice(Recovery, 1) in w.sent && 1 in w.recovered && !w.state.active && !w.state.recoveryNeeded && w.flights == map[]
  {
    es := TellFirst();
    es := CloseIt(es);
    Extend(ONE, IDLE, es, Check(1));
    es := es + [Check(1)];
    Extend(ONE, IDLE, es, Send(1, true, 0));
    es := es + [Send(1, true, 0)];
    Extend(ONE, IDLE, es, Finish(1));
    es := es + [Finish(1)];
  }

  lemma CloseIt(es: seq<Event>) returns (more: seq<Event>)
    requires Legal(ONE, IDLE, es) && Told1(Run(ONE, IDLE, es))
    ensures more == es + [Finish(0)] + [Observe(HEALTHY)] && Legal(ONE, IDLE, more)
    ensures var w := Run(ONE, IDLE, more);
      !w.state.active && w.state.recoveryNeeded && w.state.recoveryPending && w.state.incidentGeneration == 1 &&
      w.flights == map[1 := Flight(Recovery, 1, Cause(w.state.reason, w.state.check), 0, Queued)]
  {
    Extend(ONE, IDLE, es, Finish(0));
    more := es + [Finish(0)];
    Extend(ONE, IDLE, more, Observe(HEALTHY));
    more := more + [Observe(HEALTHY)];
  }
}
