/** What every interleaving of observations, checks, sends and commits keeps, for one alert key. */
module HubAlertProofs {
  import opened HubAlert
  import opened Options

  predicate Alive(w: Watch, f: nat, k: Kind, g: nat) {
    f in w.flights && w.flights[f].kind == k && w.flights[f].generation == g
  }

  /** Some notification of this kind for the present generation is on its way. */
  ghost predicate Flying(w: Watch, k: Kind) {
    exists f :: Alive(w, f, k, w.state.incidentGeneration)
  }

  predicate PendingFor(s: AlertState, k: Kind) {
    match k
    case First => s.incidentPending
    case Reminder => s.reminderPending
    case Recovery => s.recoveryPending
  }

  ghost predicate Ids(w: Watch) {
    (forall f | f in w.flights :: f < w.next && w.flights[f].generation <= w.state.incidentGeneration) &&
    (forall f, g | f in w.flights && g in w.flights ::
       w.flights[f].kind == w.flights[g].kind && w.flights[f].generation == w.flights[g].generation ==> f == g) &&
    (forall x | x in w.sent :: x.generation <= w.state.incidentGeneration) &&
    (forall g | g in w.recorded :: g <= w.state.incidentGeneration) &&
    (forall g | g in w.causes :: g <= w.state.incidentGeneration) &&
    (forall g | g in w.cleared :: g <= w.state.incidentGeneration)
  }

  /** The pending flags and the flights of the present generation agree. */
  predicate FlightFits(s: AlertState, x: Flight) {
    x.generation == s.incidentGeneration ==>
      match x.kind
      case First => s.incidentPending && !s.incidentDelivered
      case Reminder =>
        if s.reminderPending then
          s.active && s.incidentDelivered && s.lastIncidentDelivery.Some? &&
          x.createdAt >= s.lastIncidentDelivery.value + REMINDER_AFTER
        else s.remindersStopped || !s.active
      case Recovery => s.recoveryPending && !s.active
  }

  ghost predicate Fits(w: Watch) {
    (forall f | f in w.flights :: FlightFits(w.state, w.flights[f])) &&
    (forall k :: PendingFor(w.state, k) ==> Flying(w, k))
  }

  predicate Once(k: Kind) { k == First || k == Recovery }

  predicate Landed(x: Flight) { x.stage.Sent? && x.stage.ok }

  ghost predicate SentOnce(w: Watch) {
    (forall x | x in w.sent && Once(x.kind) :: w.sent[x] == 1) &&
    (forall f | f in w.flights && Once(w.flights[f].kind) ::
       (Landed(w.flights[f]) <==> Notice(w.flights[f].kind, w.flights[f].generation) in w.sent))
  }

  ghost predicate Settled(w: Watch) {
    var g := w.state.incidentGeneration;
    (Notice(First, g) in w.sent ==> w.state.incidentDelivered || !w.state.active || Flying(w, First)) &&
    (Notice(Recovery, g) in w.sent ==> !w.state.active && (!w.state.recoveryNeeded || Flying(w, Recovery)))
  }

  ghost predicate Recorded(w: Watch) {
    (w.state.incidentDelivered || w.state.recoveryNeeded ==> w.state.incidentGeneration in w.recorded) &&
    (w.state.recoveryNeeded ==> !w.state.active) &&
    (forall f | f in w.flights && w.flights[f].kind == Recovery :: w.flights[f].generation in w.recorded) &&
    (forall x | x in w.sent && x.kind == Recovery :: x.generation in w.recorded) &&
    (w.state.active ==> (w.state.incidentGeneration in w.cleared <==> w.state.remindersStopped))
  }

  /** A notice names the reason and the check its incident opened with, and the last delivery is the recorded one. */
  ghost predicate Told(w: Watch) {
    var g := w.state.incidentGeneration;
    (forall f | f in w.flights ::
       w.flights[f].generation in w.causes && w.flights[f].cause == w.causes[w.flights[f].generation]) &&
    (w.state.active || w.state.recoveryNeeded ==>
       g in w.causes && w.causes[g] == Cause(w.state.reason, w.state.check)) &&
    (w.state.incidentDelivered ==> w.state.lastIncidentDelivery.Some?) &&
    (w.state.lastIncidentDelivery.Some? ==> g in w.recorded && w.recorded[g] == w.state.lastIncidentDelivery.value)
  }

  /** An incident that closed with its notice recorded owes its recovery, has had it, or lost it to a problem observation. */
  ghost predicate Accounts(w: Watch) {
    var g := w.state.incidentGeneration;
    (w.state.active ==> (w.state.incidentDelivered <==> g in w.recorded)) &&
    (forall h :: h in w.closed <==> h in w.recorded && !(h == g && w.state.active)) &&
    (forall h :: h in w.recovered <==> h in w.closed && h !in w.dropped && !(h == g && w.state.recoveryNeeded)) &&
    w.dropped <= w.closed && (w.state.recoveryNeeded ==> g in w.closed && g !in w.dropped) &&
    (forall h | h in w.recovered :: Notice(Recovery, h) in w.sent)
  }

  ghost predicate Inv(w: Watch) {
    Ids(w) && Fits(w) && SentOnce(w) && Settled(w) && Recorded(w) && Told(w) && Accounts(w)
  }

  // ---------------------------------------------------------------- an observation

  lemma ObserveIds(c: Config, w: Watch, o: Observation)
    requires Ids(w) && Fits(w)
    ensures Ids(DoObserve(c, w, o))
  {
  }

  lemma ObserveFlights(c: Config, w: Watch, o: Observation)
    requires Ids(w) && Fits(w)
    ensures forall f | f in DoObserve(c, w, o).flights :: FlightFits(DoObserve(c, w, o).state, DoObserve(c, w, o).flights[f])
  {
  }

  lemma ObserveFlying(c: Config, w: Watch, o: Observation, k: Kind)
    requires Ids(w) && Fits(w) && PendingFor(DoObserve(c, w, o).state, k)
    ensures Flying(DoObserve(c, w, o), k)
  {
    var w' := DoObserve(c, w, o);
    if Note(c, w.state, o) == Some(k) {
      assert Alive(w', w.next, k, w'.state.incidentGeneration);
    } else {
      assert PendingFor(w.state, k) && Flying(w, k);
      var f :| Alive(w, f, k, w.state.incidentGeneration);
      assert Alive(w', f, k, w'.state.incidentGeneration);
    }
  }

  lemma ObserveSent(c: Config, w: Watch, o: Observation)
    requires Inv(w)
    ensures SentOnce(DoObserve(c, w, o))
  {
  }

  lemma ObserveSettled(c: Config, w: Watch, o: Observation)
    requires Inv(w)
    ensures Settled(DoObserve(c, w, o))
  {
    var w' := DoObserve(c, w, o);
    if !Opens(c, w.state, o) {
      forall k | Flying(w, k) ensures Flying(w', k) {
        var f :| Alive(w, f, k, w.state.incidentGeneration);
        assert Alive(w', f, k, w'.state.incidentGeneration);
      }
    }
  }

  lemma ObserveRecorded(c: Config, w: Watch, o: Observation)
    requires Inv(w)
    ensures Recorded(DoObserve(c, w, o))
  {
  }

  lemma ObserveTold(c: Config, w: Watch, o: Observation)
    requires Ids(w) && Recorded(w) && Told(w)
    ensures Told(DoObserve(c, w, o))
  {
  }

  lemma ObserveAccounts(c: Config, w: Watch, o: Observation)
    requires Ids(w) && Recorded(w) && Accounts(w)
    ensures Accounts(DoObserve(c, w, o))
  {
  }

  lemma KeepObserve(c: Config, w: Watch, o: Observation)
    requires Inv(w)
    ensures Inv(DoObserve(c, w, o))
  {
    ObserveIds(c, w, o);
    ObserveFlights(c, w, o);
    forall k | PendingFor(DoObserve(c, w, o).state, k) ensures Flying(DoObserve(c, w, o), k) {
      ObserveFlying(c, w, o, k);
    }
    ObserveSent(c, w, o);
    ObserveSettled(c, w, o);
    ObserveRecorded(c, w, o);
    ObserveTold(c, w, o);
    ObserveAccounts(c, w, o);
  }

  // ---------------------------------------------------------------- one notification's own steps

  /** Flight f is over or moved on; every other flight is as it was, and the generation too. */
  lemma OtherFlying(w: Watch, w': Watch, f: nat, k: Kind)
    requires Ids(w) && f in w.flights && w'.state.incidentGeneration == w.state.incidentGeneration
    requires forall g | g in w.flights && g != f :: g in w'.flights && w'.flights[g] == w.flights[g]
    requires Flying(w, k) && !(w.flights[f].kind == k && w.flights[f].generation == w.state.incidentGeneration)
    ensures Flying(w', k)
  {
    var g :| Alive(w, g, k, w.state.incidentGeneration);
    assert Alive(w', g, k, w'.state.incidentGeneration);
  }

  lemma SameFlying(w: Watch, w': Watch, k: Kind)
    requires w'.state.incidentGeneration == w.state.incidentGeneration
    requires forall g | g in w.flights ::
      g in w'.flights && w'.flights[g].kind == w.flights[g].kind && w'.flights[g].generation == w.flights[g].generation
    requires Flying(w, k)
    ensures Flying(w', k)
  {
    var g :| Alive(w, g, k, w.state.incidentGeneration);
    assert Alive(w', g, k, w'.state.incidentGeneration);
  }

  lemma SendSent(w: Watch, f: nat, ok: bool, at: int)
    requires Ids(w) && SentOnce(w) && f in w.flights && w.flights[f].stage.Sending?
    ensures Ids(DoSend(w, f, ok, at)) && SentOnce(DoSend(w, f, ok, at))
  {
  }

  lemma SendFits(w: Watch, f: nat, ok: bool, at: int)
    requires Inv(w) && f in w.flights && w.flights[f].stage.Sending?
    ensures var w' := DoSend(w, f, ok, at); Fits(w') && Settled(w') && Recorded(w') && Told(w') && Accounts(w')
  {
    var w' := DoSend(w, f, ok, at);
    forall k | Flying(w, k) ensures Flying(w', k) { SameFlying(w, w', k); }
    assert Alive(w, f, w.flights[f].kind, w.flights[f].generation);
    assert Alive(w', f, w.flights[f].kind, w.flights[f].generation);
  }

  lemma KeepSend(w: Watch, f: nat, ok: bool, at: int)
    requires Inv(w) && f in w.flights && w.flights[f].stage.Sending?
    ensures Inv(DoSend(w, f, ok, at))
  {
    SendSent(w, f, ok, at);
    SendFits(w, f, ok, at);
  }

  lemma CheckGoFits(w: Watch, f: nat)
    requires Ids(w) && Fits(w) && Settled(w) && f in w.flights && w.flights[f].stage.Queued?
    requires ShouldSend(w.state, w.flights[f].kind, w.flights[f].generation)
    ensures var w' := DoCheck(w, f); Ids(w') && Fits(w') && Settled(w')
  {
    forall k | Flying(w, k) ensures Flying(DoCheck(w, f), k) { SameFlying(w, DoCheck(w, f), k); }
  }

  lemma KeepCheckGo(w: Watch, f: nat)
    requires Inv(w) && f in w.flights && w.flights[f].stage.Queued?
    requires ShouldSend(w.state, w.flights[f].kind, w.flights[f].generation)
    ensures Inv(DoCheck(w, f))
  {
    CheckGoFits(w, f);
  }

  lemma CheckDropFits(w: Watch, f: nat)
    requires Ids(w) && Fits(w) && f in w.flights && !ShouldSend(w.state, w.flights[f].kind, w.flights[f].generation)
    ensures Ids(DoCheck(w, f)) && Fits(DoCheck(w, f))
  {
    var w' := DoCheck(w, f);
    var x := w.flights[f];
    forall k | Flying(w, k) && !(x.kind == k && x.generation == w.state.incidentGeneration) ensures Flying(w', k) {
      OtherFlying(w, w', f, k);
    }
  }

  lemma CheckDropSettled(w: Watch, f: nat)
    requires Ids(w) && SentOnce(w) && Settled(w) && f in w.flights && w.flights[f].stage.Queued?
    requires !ShouldSend(w.state, w.flights[f].kind, w.flights[f].generation)
    ensures SentOnce(DoCheck(w, f)) && Settled(DoCheck(w, f))
  {
    var w' := DoCheck(w, f);
    var x := w.flights[f];
    forall k | Flying(w, k) && !(x.kind == k && x.generation == w.state.incidentGeneration) ensures Flying(w', k) {
      OtherFlying(w, w', f, k);
    }
  }

  lemma CheckDropRecords(w: Watch, f: nat)
    requires Recorded(w) && Told(w) && Accounts(w) && f in w.flights
    ensures Recorded(DoCheck(w, f)) && Told(DoCheck(w, f)) && Accounts(DoCheck(w, f))
  {
  }

  lemma KeepCheckDrop(w: Watch, f: nat)
    requires Inv(w) && f in w.flights && w.flights[f].stage.Queued?
    requires !ShouldSend(w.state, w.flights[f].kind, w.flights[f].generation)
    ensures Inv(DoCheck(w, f))
  {
    CheckDropFits(w, f);
    CheckDropSettled(w, f);
    CheckDropRecords(w, f);
  }

  lemma FinishFits(w: Watch, f: nat)
    requires Ids(w) && Fits(w) && f in w.flights && w.flights[f].stage.Sent?
    ensures Ids(DoFinish(w, f)) && Fits(DoFinish(w, f))
  {
    var w' := DoFinish(w, f);
    var x := w.flights[f];
    forall k | Flying(w, k) && !(x.kind == k && x.generation == w.state.incidentGeneration) ensures Flying(w', k) {
      OtherFlying(w, w', f, k);
    }
  }

  lemma FinishSettled(w: Watch, f: nat)
    requires Ids(w) && SentOnce(w) && Settled(w) && f in w.flights && w.flights[f].stage.Sent?
    ensures SentOnce(DoFinish(w, f)) && Settled(DoFinish(w, f))
  {
    var w' := DoFinish(w, f);
    var x := w.flights[f];
    forall k | Flying(w, k) && !(x.kind == k && x.generation == w.state.incidentGeneration) ensures Flying(w', k) {
      OtherFlying(w, w', f, k);
    }
  }

  lemma FinishRecorded(w: Watch, f: nat)
    requires Recorded(w) && f in w.flights && w.flights[f].stage.Sent?
    ensures Recorded(DoFinish(w, f))
  {
  }

  lemma FinishTold(w: Watch, f: nat)
    requires Told(w) && f in w.flights && w.flights[f].stage.Sent?
    ensures Told(DoFinish(w, f))
  {
  }

  lemma FinishAccounts(w: Watch, f: nat)
    requires SentOnce(w) && Accounts(w) && f in w.flights && w.flights[f].stage.Sent?
    ensures Accounts(DoFinish(w, f))
  {
    var x := w.flights[f];
    if x.kind == Recovery && Records(w.state, x.kind, x.generation, x.stage.ok) { assert Landed(x); }
  }

  lemma KeepFinish(w: Watch, f: nat)
    requires Inv(w) && f in w.flights && w.flights[f].stage.Sent?
    ensures Inv(DoFinish(w, f))
  {
    FinishFits(w, f);
    FinishSettled(w, f);
    FinishRecorded(w, f);
    FinishTold(w, f);
    FinishAccounts(w, f);
  }

  lemma Keep(c: Config, w: Watch, e: Event)
    requires Inv(w) && Enabled(w, e)
    ensures Inv(Apply(c, w, e))
  {
    match e
    case Observe(o) => KeepObserve(c, w, o);
    case Check(f) =>
      if ShouldSend(w.state, w.flights[f].kind, w.flights[f].generation) { KeepCheckGo(w, f); } else { KeepCheckDrop(w, f); }
    case Send(f, ok, at) => KeepSend(w, f, ok, at);
    case Finish(f) => KeepFinish(w, f);
  }

  // ---------------------------------------------------------------- whole runs

  ghost predicate Legal(c: Config, w: Watch, es: seq<Event>)
    decreases |es|
  {
    es == [] || (Enabled(w, es[0]) && Legal(c, Apply(c, w, es[0]), es[1..]))
  }

  ghost function Run(c: Config, w: Watch, es: seq<Event>): Watch
    requires Legal(c, w, es)
    decreases |es|
  {
    if es == [] then w else Run(c, Apply(c, w, es[0]), es[1..])
  }

  lemma IdleInv()
    ensures Inv(IDLE)
  {
  }

  lemma {:induction false} RunInv(c: Config, w: Watch, es: seq<Event>)
    requires Inv(w) && Legal(c, w, es)
    ensures Inv(Run(c, w, es))
    decreases |es|
  {
    if es != [] {
      Keep(c, w, es[0]);
      RunInv(c, Apply(c, w, es[0]), es[1..]);
    }
  }

  /** Each generation has at most one successful first notice and at most one successful recovery. */
  lemma NoticedOnce(c: Config, es: seq<Event>, g: nat)
    requires Legal(c, IDLE, es)
    ensures Run(c, IDLE, es).sent[Notice(First, g)] <= 1 && Run(c, IDLE, es).sent[Notice(Recovery, g)] <= 1
  {
    IdleInv();
    RunInv(c, IDLE, es);
  }

  /** A recovery is only sent for a generation whose first notice was recorded as delivered. */
  lemma RecoveryAfterDelivery(c: Config, es: seq<Event>, g: nat)
    requires Legal(c, IDLE, es) && Notice(Recovery, g) in Run(c, IDLE, es).sent
    ensures g in Run(c, IDLE, es).recorded
  {
    IdleInv();
    RunInv(c, IDLE, es);
  }

  /** A reminder passes its check only before the incident's first healthy observation, half an hour after the last delivery. */
  lemma RemindersStop(c: Config, es: seq<Event>, f: nat)
    requires Legal(c, IDLE, es)
    requires var w := Run(c, IDLE, es);
      Enabled(w, Check(f)) && w.flights[f].kind == Reminder && ShouldSend(w.state, Reminder, w.flights[f].generation)
    ensures var w := Run(c, IDLE, es);
      var x := w.flights[f];
      x.generation !in w.cleared && x.generation in w.recorded && x.createdAt >= w.recorded[x.generation] + REMINDER_AFTER
  {
    IdleInv();
    RunInv(c, IDLE, es);
  }

  /** Whatever is sent about an incident, its recovery included, carries the reason and the check that opened it. */
  lemma NoticeNamesCause(c: Config, es: seq<Event>, f: nat)
    requires Legal(c, IDLE, es) && f in Run(c, IDLE, es).flights
    ensures var w := Run(c, IDLE, es); var x := w.flights[f];
      x.generation in w.causes && x.cause == w.causes[x.generation]
  {
    IdleInv();
    RunInv(c, IDLE, es);
  }

  lemma ObservedOwes(c: Config, s: AlertState, o: Observation)
    requires c.notifier
    ensures var t := Observed(c, s, o);
      (t.active && !t.incidentDelivered ==> t.incidentPending) && (!t.active && t.recoveryNeeded ==> t.recoveryPending) &&
      (ReminderDue(c, t, o.now) ==> t.reminderPending)
  {
  }

  /** A reminder is due: half an hour without a healthy observation since the last delivery. */
  predicate ReminderDue(c: Config, s: AlertState, now: int) {
    c.node && s.active && s.incidentDelivered && !s.remindersStopped && s.lastIncidentDelivery.Some? &&
    now >= s.lastIncidentDelivery.value + REMINDER_AFTER
  }

  /** After any observation, every notice the incident still owes is on its way. */
  lemma NothingForgotten(c: Config, es: seq<Event>, o: Observation)
    requires Legal(c, IDLE, es) && c.notifier
    ensures var w := DoObserve(c, Run(c, IDLE, es), o);
      (w.state.active && !w.state.incidentDelivered ==> Flying(w, First)) &&
      (!w.state.active && w.state.recoveryNeeded ==> Flying(w, Recovery)) &&
      (ReminderDue(c, w.state, o.now) ==> Flying(w, Reminder))
  {
    IdleInv();
    RunInv(c, IDLE, es);
    Owing(c, Run(c, IDLE, es), o);
  }

  lemma Owing(c: Config, w: Watch, o: Observation)
    requires Ids(w) && Fits(w) && c.notifier
    ensures var w' := DoObserve(c, w, o);
      (w'.state.active && !w'.state.incidentDelivered ==> Flying(w', First)) &&
      (!w'.state.active && w'.state.recoveryNeeded ==> Flying(w', Recovery)) &&
      (ReminderDue(c, w'.state, o.now) ==> Flying(w', Reminder))
  {
    ObservedOwes(c, w.state, o);
    forall k | PendingFor(DoObserve(c, w, o).state, k) ensures Flying(DoObserve(c, w, o), k) {
      ObserveFlying(c, w, o, k);
    }
  }

  /**
   * An incident that is over comes to owe a recovery exactly when its notice was recorded while it was active,
   * and the recovery is then recorded as delivered exactly when it is no longer owed and no problem observation
   * took it away.
   */
  lemma RecoveryExactly(c: Config, es: seq<Event>, g: nat)
    requires Legal(c, IDLE, es)
    ensures var w := Run(c, IDLE, es); var now := g == w.state.incidentGeneration;
      (g in w.closed <==> g in w.recorded && !(now && w.state.active)) &&
      (g in w.recovered <==> g in w.closed && g !in w.dropped && !(now && w.state.recoveryNeeded)) &&
      (g in w.recovered ==> w.sent[Notice(Recovery, g)] == 1) &&
      (Notice(Recovery, g) in w.sent ==> g in w.closed)
  {
    IdleInv();
    RunInv(c, IDLE, es);
    if Notice(Recovery, g) in Run(c, IDLE, es).sent { SentRecoveryClosed(Run(c, IDLE, es), g); }
  }

  lemma SentRecoveryClosed(w: Watch, g: nat)
    requires Recorded(w) && Settled(w) && Accounts(w) && Notice(Recovery, g) in w.sent
    ensures g in w.closed
  {
  }

  /** A problem observation takes an owed recovery away for good. */
  lemma {:induction false} DroppedForGood(c: Config, w: Watch, es: seq<Event>, g: nat)
    requires Inv(w) && Legal(c, w, es) && g in w.dropped
    ensures g in Run(c, w, es).dropped && g !in Run(c, w, es).recovered
    decreases |es|
  {
    if es != [] {
      Keep(c, w, es[0]);
      DroppedForGood(c, Apply(c, w, es[0]), es[1..], g);
    }
  }

  // ---------------------------------------------------------------- incidents without a recovery

  lemma {:induction false} Extend(c: Config, w: Watch, es: seq<Event>, e: Event)
    requires Legal(c, w, es) && Enabled(Run(c, w, es), e)
    ensures Legal(c, w, es + [e]) && Run(c, w, es + [e]) == Apply(c, Run(c, w, es), e)
    decreases |es|
  {
    if es == [] {
      assert (es + [e])[1..] == [];
    } else {
      Extend(c, Apply(c, w, es[0]), es[1..], e);
      assert (es + [e])[1..] == es[1..] + [e];
    }
  }

  const ONE: Config := Config(1, false, true)

  function Problem(grace: int): Observation { Observation(0, true, None, "r", "c", grace) }

  const HEALTHY: Observation := Observation(0, false, None, "", "", 0)

  /** Incident 1 is open and its first notice was sent, but that is not committed yet. */
  predicate Told1(w: Watch) {
    w.state.active && w.state.incidentGeneration == 1 && !w.state.incidentDelivered && w.state.incidentPending &&
    !w.state.recoveryNeeded && !w.state.recoveryPending && !w.state.reminderPending && w.state.clearRuns == 0 && w.state.badRuns == 0 &&
    w.next == 1 && w.flights == map[0 := Flight(First, 1, Cause("r", "c"), 0, Sent(true, 0))] &&
    w.sent == multiset{Notice(First, 1)} && w.recorded == map[] && w.closed == {} && w.dropped == {}
  }

  lemma TellFirst() returns (es: seq<Event>)
    ensures es == [Observe(Problem(0))] + [Check(0)] + [Send(0, true, 0)] && Legal(ONE, IDLE, es) && Told1(Run(ONE, IDLE, es))
  {
    Extend(ONE, IDLE, [], Observe(Problem(0)));
    es := [] + [Observe(Problem(0))];
    Extend(ONE, IDLE, es, Check(0));
    es := es + [Check(0)];
    Extend(ONE, IDLE, es, Send(0, true, 0));
    es := es + [Send(0, true, 0)];
    assert multiset{} + multiset{Notice(First, 1)} == multiset{Notice(First, 1)};
  }

  /** The incident closes before the commit: the notice was sent, it is not recorded, and no recovery is ever owed. */
  lemma SentNotRecorded() returns (es: seq<Event>)
    ensures es == [Observe(Problem(0))] + [Check(0)] + [Send(0, true, 0)] + [Observe(HEALTHY)] + [Finish(0)] && Legal(ONE, IDLE, es)
    ensures var w := Run(ONE, IDLE, es);
      Notice(First, 1) in w.sent && !w.state.active && 1 !in w.recorded && 1 !in w.closed && w.flights == map[]
  {
    es := TellFirst();
    Extend(ONE, IDLE, es, Observe(HEALTHY));
    es := es + [Observe(HEALTHY)];
    Extend(ONE, IDLE, es, Finish(0));
    es := es + [Finish(0)];
  }

  /** The notice was recorded and the incident closed; one problem observation within its grace period comes before the recovery. */
  lemma RecoveryLost() returns (es: seq<Event>)
    ensures es == [Observe(Problem(0))] + [Check(0)] + [Send(0, true, 0)] + [Finish(0)] + [Observe(HEALTHY)] +
                  [Observe(Problem(10))] + [Check(1)]
    ensures Legal(ONE, IDLE, es)
    ensures var w := Run(ONE, IDLE, es);
      1 in w.recorded && 1 in w.dropped && Notice(Recovery, 1) !in w.sent && !w.state.active && w.flights == map[]
  {
    es := TellFirst();
    Extend(ONE, IDLE, es, Finish(0));
    es := es + [Finish(0)];
    Extend(ONE, IDLE, es, Observe(HEALTHY));
    es := es + [Observe(HEALTHY)];
    Extend(ONE, IDLE, es, Observe(Problem(10)));
    es := es + [Observe(Problem(10))];
    Extend(ONE, IDLE, es, Check(1));
    es := es + [Check(1)];
  }

  /** No pending flag is left behind: while one is set, the notification it stands for is still on its way. */
  lemma PendingIsFlying(c: Config, es: seq<Event>, k: Kind)
    requires Legal(c, IDLE, es) && PendingFor(Run(c, IDLE, es).state, k)
    ensures Flying(Run(c, IDLE, es), k)
  {
    IdleInv();
    RunInv(c, IDLE, es);
  }

  /** A notification of an older generation changes nothing, whether it is checked or committed. */
  lemma OldGenerationIgnored(w: Watch, f: nat)
    requires f in w.flights && w.flights[f].generation != w.state.incidentGeneration
    ensures w.flights[f].stage.Queued? ==> DoCheck(w, f) == w.(flights := w.flights - {f})
    ensures w.flights[f].stage.Sent? ==> DoFinish(w, f) == w.(flights := w.flights - {f})
  {
  }
}
