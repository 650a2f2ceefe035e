/**
 * The hub's alert machine for one key. Observations run under the hub lock; a
 * notification is created there, checked under the lock later, sent without it, and
 * committed under it again, so observations and other notifications come between.
 */
module HubAlert {
  import opened Options

  /** Presence reminders are 30 minutes apart; times are in nanoseconds. */
  const REMINDER_AFTER: int := 1_800_000_000_000

  datatype AlertState = AlertState(
    badSince: Option<int>, badRuns: nat, clearRuns: nat, active: bool, reason: string, check: string,
    incidentDelivered: bool, incidentPending: bool, reminderPending: bool, remindersStopped: bool,
    incidentGeneration: nat, lastIncidentDelivery: Option<int>, recoveryNeeded: bool, recoveryPending: bool)

  const QUIET: AlertState :=
    AlertState(None, 0, 0, false, "", "", false, false, false, false, 0, None, false, false)

  /** One observation: `since` is when the problem began, if the caller knows. */
  datatype Observation = Observation(now: int, problem: bool, since: Option<int>, reason: string, check: string, grace: int)

  datatype Kind = First | Reminder | Recovery

  /** `observations` is how many agreeing observations flip the alert; only node keys get reminders. */
  datatype Config = Config(observations: nat, node: bool, notifier: bool)

  // ---------------------------------------------------------------- under the lock

  /** When the present problem began. */
  function Began(s: AlertState, o: Observation): int {
    if s.badSince.Some? then s.badSince.value else if o.since.Some? then o.since.value else o.now
  }

  function BadRuns(s: AlertState, o: Observation): nat {
    if o.now - Began(s, o) >= o.grace then s.badRuns + 1 else s.badRuns
  }

  predicate Opens(c: Config, s: AlertState, o: Observation) {
    o.problem && !s.active && BadRuns(s, o) >= c.observations
  }

  predicate Closes(c: Config, s: AlertState, o: Observation) {
    !o.problem && s.active && s.clearRuns + 1 >= c.observations
  }

  function Opened(s: AlertState, o: Observation): AlertState {
    s.(clearRuns := 0, recoveryNeeded := false, active := true, badRuns := 0, badSince := None, reason := o.reason,
       check := o.check, incidentGeneration := s.incidentGeneration + 1, incidentDelivered := false,
       incidentPending := false, reminderPending := false, remindersStopped := false, lastIncidentDelivery := None,
       recoveryPending := false)
  }

  function Noted(c: Config, s: AlertState, o: Observation): AlertState {
    if Opens(c, s, o) then Opened(s, o)
    else if o.problem then
      s.(clearRuns := 0, recoveryNeeded := false,
         badSince := if s.active then s.badSince else Some(Began(s, o)),
         badRuns := if s.active then s.badRuns else BadRuns(s, o))
    else
      s.(badSince := None, badRuns := 0,
         clearRuns := if Closes(c, s, o) then 0 else if s.active then s.clearRuns + 1 else s.clearRuns,
         remindersStopped := s.active || s.remindersStopped,
         reminderPending := !s.active && s.reminderPending,
         active := s.active && !Closes(c, s, o),
         recoveryNeeded := s.recoveryNeeded || (Closes(c, s, o) && s.incidentDelivered))
  }

  /** pendingHubNotificationAtLocked: the notification this state owes now. */
  function Owed(c: Config, s: AlertState, now: int): Option<Kind> {
    if !c.notifier then None
    else if s.active && !s.incidentDelivered && !s.incidentPending then Some(First)
    else if c.node && s.active && s.incidentDelivered && !s.remindersStopped && !s.reminderPending &&
            s.lastIncidentDelivery.Some? && now >= s.lastIncidentDelivery.value + REMINDER_AFTER then Some(Reminder)
    else if !s.active && s.recoveryNeeded && !s.recoveryPending then Some(Recovery)
    else None
  }

  function SetPending(s: AlertState, k: Kind, on: bool): AlertState {
    s.(incidentPending := if k == First then on else s.incidentPending,
       reminderPending := if k == Reminder then on else s.reminderPending,
       recoveryPending := if k == Recovery then on else s.recoveryPending)
  }

  /** observeHubAlertLocked, with the notification it returns. */
  function Observed(c: Config, s: AlertState, o: Observation): AlertState {
    var noted := Noted(c, s, o);
    var owed := Owed(c, noted, o.now);
    if owed.Some? then SetPending(noted, owed.value, true) else noted
  }

  function Note(c: Config, s: AlertState, o: Observation): Option<Kind> {
    Owed(c, Noted(c, s, o), o.now)
  }

  predicate ShouldSend(s: AlertState, k: Kind, generation: nat) {
    s.incidentGeneration == generation &&
    match k
    case First => s.active && s.incidentPending
    case Reminder => s.active && s.reminderPending && !s.remindersStopped
    case Recovery => !s.active && s.recoveryNeeded && s.recoveryPending
  }

  /** A notification that is no longer wanted gives its pending flag back. */
  function Unwanted(s: AlertState, k: Kind, generation: nat): AlertState {
    if s.incidentGeneration == generation then SetPending(s, k, false) else s
  }

  predicate Records(s: AlertState, k: Kind, generation: nat, ok: bool) {
    s.incidentGeneration == generation && ok &&
    match k
    case First => s.active
    case Reminder => s.active && !s.remindersStopped
    case Recovery => !s.active && s.recoveryNeeded
  }

  /** The commit after a send: `at` is when a successful send returned. */
  function Finished(s: AlertState, k: Kind, generation: nat, ok: bool, at: int): AlertState {
    var freed := Unwanted(s, k, generation);
    var record := Records(s, k, generation, ok);
    if k == Recovery then
      freed.(recoveryNeeded := s.recoveryNeeded && !record,
             incidentDelivered := s.incidentDelivered && !record,
             lastIncidentDelivery := if record then None else s.lastIncidentDelivery,
             remindersStopped := s.remindersStopped && !record,
             reason := if record then "" else s.reason, check := if record then "" else s.check)
    else
      freed.(incidentDelivered := s.incidentDelivered || record,
             lastIncidentDelivery := if record then Some(at) else s.lastIncidentDelivery)
  }

  // ---------------------------------------------------------------- notifications in flight

  datatype Stage = Queued | Sending | Sent(ok: bool, at: int)

  datatype Cause = Cause(reason: string, check: string)

  datatype Flight = Flight(kind: Kind, generation: nat, cause: Cause, createdAt: int, stage: Stage)

  datatype Notice = Notice(kind: Kind, generation: nat)

  datatype Watch = Watch(
    state: AlertState, flights: map<nat, Flight>, next: nat,
    sent: multiset<Notice>,        // every send that succeeded
    recorded: map<nat, int>,       // when a notice of each generation was last recorded as delivered
    causes: map<nat, Cause>,       // what the observation that opened each generation said
    cleared: set<nat>,             // generations that saw a healthy observation while active
    closed: set<nat>,              // generations that closed with their notice recorded, and so came to owe a recovery
    recovered: set<nat>,           // generations whose recovery was recorded as delivered
    dropped: set<nat>)             // generations whose owed recovery a problem observation took away

  datatype Event =
    | Observe(o: Observation)
    | Check(f: nat)
    | Send(f: nat, ok: bool, at: int)
    | Finish(f: nat)

  const IDLE: Watch := Watch(QUIET, map[], 0, multiset{}, map[], map[], {}, {}, {}, {})

  predicate Enabled(w: Watch, e: Event) {
    match e
    case Observe(_) => true
    case Check(f) => f in w.flights && w.flights[f].stage.Queued?
    case Send(f, _, _) => f in w.flights && w.flights[f].stage.Sending?
    case Finish(f) => f in w.flights && w.flights[f].stage.Sent?
  }

  function DoObserve(c: Config, w: Watch, o: Observation): Watch {
    var kind := Note(c, w.state, o);
    var state := Observed(c, w.state, o);
    w.(state := state, next := w.next + 1,
       flights := if kind.Some? then w.flights[w.next := Flight(kind.value, state.incidentGeneration,
                                                               Cause(state.reason, state.check), o.now, Queued)]
                  else w.flights,
       causes := if Opens(c, w.state, o) then w.causes[state.incidentGeneration := Cause(o.reason, o.check)] else w.causes,
       cleared := if !o.problem && w.state.active then w.cleared + {w.state.incidentGeneration} else w.cleared,
       closed := if Closes(c, w.state, o) && w.state.incidentDelivered then w.closed + {w.state.incidentGeneration} else w.closed,
       dropped := if o.problem && w.state.recoveryNeeded then w.dropped + {w.state.incidentGeneration} else w.dropped)
  }

  function DoCheck(w: Watch, f: nat): Watch
    requires f in w.flights
  {
    var x := w.flights[f];
    var go := ShouldSend(w.state, x.kind, x.generation);
    w.(state := if go then w.state else Unwanted(w.state, x.kind, x.generation),
       flights := if go then w.flights[f := x.(stage := Sending)] else w.flights - {f})
  }

  function DoSend(w: Watch, f: nat, ok: bool, at: int): Watch
    requires f in w.flights
  {
    var x := w.flights[f];
    w.(flights := w.flights[f := x.(stage := Sent(ok, at))],
       sent := if ok then w.sent + multiset{Notice(x.kind, x.generation)} else w.sent)
  }

  function DoFinish(w: Watch, f: nat): Watch
    requires f in w.flights && w.flights[f].stage.Sent?
  {
    var x := w.flights[f];
    w.(state := Finished(w.state, x.kind, x.generation, x.stage.ok, x.stage.at), flights := w.flights - {f},
       recorded := if x.kind != Recovery && Records(w.state, x.kind, x.generation, x.stage.ok)
                   then w.recorded[x.generation := x.stage.at] else w.recorded,
       recovered := if x.kind == Recovery && Records(w.state, x.kind, x.generation, x.stage.ok)
                    then w.recovered + {x.generation} else w.recovered)
  }

  function Apply(c: Config, w: Watch, e: Event): Watch
    requires Enabled(w, e)
  {
    match e
    case Observe(o) => DoObserve(c, w, o)
    case Check(f) => DoCheck(w, f)
    case Send(f, ok, at) => DoSend(w, f, ok, at)
    case Finish(f) => DoFinish(w, f)
  }
}
