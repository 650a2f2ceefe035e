/** The hub's alert table and the methods that update it, one lock region each. */
module HubAlertBoard {
  import opened HubAlert
  import opened HubFailover
  import opened Options

  const NODE_PREFIX: string := "node:"

  datatype Notification = Notification(key: string, kind: Kind, generation: nat, reason: string, check: string)

  predicate IsNode(key: string) { NODE_PREFIX <= key }

  function StateAt(alerts: map<string, AlertState>, key: string): AlertState {
    if key in alerts then alerts[key] else QUIET
  }

  /** One notification dispatched with nothing in between: checked, sent with this result, committed. */
  function Dispatched(alerts: map<string, AlertState>, n: Notification, ok: bool, at: int): map<string, AlertState> {
    if n.key !in alerts then alerts
    else if ShouldSend(alerts[n.key], n.kind, n.generation) then
      alerts[n.key := Finished(alerts[n.key], n.kind, n.generation, ok, at)]
    else alerts[n.key := Unwanted(alerts[n.key], n.kind, n.generation)]
  }

  function DispatchedAll(alerts: map<string, AlertState>, ns: seq<Notification>, results: seq<(bool, int)>): map<string, AlertState>
    requires |ns| == |results|
  {
    if ns == [] then alerts
    else Dispatched(DispatchedAll(alerts, ns[..|ns| - 1], results[..|ns| - 1]), ns[|ns| - 1], results[|ns| - 1].0, results[|ns| - 1].1)
  }

  /** What happens to one key is what the machine does: checked, then sent and committed if the check lets it go. */
  lemma DispatchIsRun(c: Config, w: Watch, f: nat, alerts: map<string, AlertState>, n: Notification, ok: bool, at: int)
    requires n.key in alerts && alerts[n.key] == w.state && Enabled(w, Check(f))
    requires w.flights[f].kind == n.kind && w.flights[f].generation == n.generation
    ensures var w1, after := Apply(c, w, Check(f)), Dispatched(alerts, n, ok, at);
      after.Keys == alerts.Keys && (forall key | key in alerts && key != n.key :: after[key] == alerts[key]) &&
      (f !in w1.flights ==> after[n.key] == w1.state) &&
      (f in w1.flights ==> Enabled(w1, Send(f, ok, at)) && Enabled(Apply(c, w1, Send(f, ok, at)), Finish(f)) &&
                           after[n.key] == Apply(c, Apply(c, w1, Send(f, ok, at)), Finish(f)).state)
  {
  }

  method NoteProblem(c: Config, state: AlertState, o: Observation) returns (s: AlertState)
    requires o.problem
    ensures s == Noted(c, state, o)
  {
    s := state.(clearRuns := 0, recoveryNeeded := false);
    if s.active { return; }
    var badSince, badRuns := s.badSince, s.badRuns;
    if badSince.None? {
      badSince := if o.since.Some? then o.since else Some(o.now);
    }
    if o.now - badSince.value >= o.grace {
      badRuns := badRuns + 1;
    }
    if badRuns >= c.observations {
      s := s.(active := true, badRuns := 0, badSince := None, reason := o.reason, check := o.check,
              incidentGeneration := s.incidentGeneration + 1, incidentDelivered := false, incidentPending := false,
              reminderPending := false, remindersStopped := false, lastIncidentDelivery := None, recoveryPending := false);
    } else {
      s := s.(badSince := badSince, badRuns := badRuns);
    }
  }

  method NoteHealthy(c: Config, state: AlertState, o: Observation) returns (s: AlertState)
    requires !o.problem
    ensures s == Noted(c, state, o)
  {
    s := state.(badSince := None, badRuns := 0);
    if s.active {
      s := s.(clearRuns := s.clearRuns + 1, remindersStopped := true, reminderPending := false);
      if s.clearRuns >= c.observations {
        s := s.(active := false, clearRuns := 0);
        if s.incidentDelivered {
          s := s.(recoveryNeeded := true);
        }
      }
    }
  }

  class AlertBoard {
    var alerts: map<string, AlertState>
    const observations: nat
    const notifier: bool

    constructor (observations: nat, notifier: bool)
      ensures this.observations == observations && this.notifier == notifier && alerts == map[]
    {
      this.observations, this.notifier, alerts := observations, notifier, map[];
    }

    function ConfigFor(key: string): Config {
      Config(observations, IsNode(key), notifier)
    }

    method Observe(key: string, o: Observation) returns (note: Option<Notification>)
      modifies this`alerts
      ensures alerts == old(alerts)[key := Observed(ConfigFor(key), StateAt(old(alerts), key), o)]
      ensures note.Some? <==> Note(ConfigFor(key), StateAt(old(alerts), key), o).Some?
      ensures note.Some? ==>
        var s := alerts[key];
        note.value == Notification(key, Note(ConfigFor(key), StateAt(old(alerts), key), o).value, s.incidentGeneration, s.reason, s.check)
      ensures note.Some? && note.value.kind == Reminder ==> "node:" <= key
    {
      var s := if key in alerts then alerts[key] else QUIET;
      if o.problem {
        s := NoteProblem(ConfigFor(key), s, o);
      } else {
        s := NoteHealthy(ConfigFor(key), s, o);
      }
      var owed := Owed(ConfigFor(key), s, o.now);
      note := None;
      if owed.Some? {
        s := SetPending(s, owed.value, true);
        note := Some(Notification(key, owed.value, s.incidentGeneration, s.reason, s.check));
      }
      alerts := alerts[key := s];
    }

    /** A watched machine's observation also tells whether it just went down or came up. */
    method ObserveNode(machine: string, o: Observation) returns (note: Option<Notification>, event: Option<Phase>)
      modifies this`alerts
      ensures var key := NODE_PREFIX + machine; var was := StateAt(old(alerts), key);
        alerts == old(alerts)[key := Observed(ConfigFor(key), was, o)] &&
        (event == Some(Down) <==> !was.active && alerts[key].active) &&
        (event == Some(Up) <==> was.active && !alerts[key].active)
    {
      var key := NODE_PREFIX + machine;
      var wasActive := key in alerts && alerts[key].active;
      note := Observe(key, o);
      if !wasActive && alerts[key].active {
        event := Some(Down);
      } else if wasActive && !alerts[key].active {
        event := Some(Up);
      } else {
        event := None;
      }
    }

    /** The check before a send: a notification that is no longer wanted gives its pending flag back. */
    method Recheck(n: Notification) returns (go: bool)
      modifies this`alerts
      ensures go <==> n.key in old(alerts) && ShouldSend(old(alerts)[n.key], n.kind, n.generation)
      ensures n.key in old(alerts) ==>
        var s := old(alerts)[n.key];
        go == (s.incidentGeneration == n.generation &&
               (if n.kind == Recovery then !s.active && s.recoveryNeeded && s.recoveryPending
                else s.active && (if n.kind == First then s.incidentPending else s.reminderPending && !s.remindersStopped)))
      ensures alerts == if go || n.key !in old(alerts) then old(alerts)
                        else old(alerts)[n.key := Unwanted(old(alerts)[n.key], n.kind, n.generation)]
    {
      if n.key !in alerts { return false; }
      var s := alerts[n.key];
      go := ShouldSend(s, n.kind, n.generation);
      if !go {
        if s.incidentGeneration == n.generation { s := SetPending(s, n.kind, false); }
        alerts := alerts[n.key := s];
      }
    }

    /** The commit after a send. */
    method Commit(n: Notification, ok: bool, at: int)
      modifies this`alerts
      ensures alerts == if n.key in old(alerts) then old(alerts)[n.key := Finished(old(alerts)[n.key], n.kind, n.generation, ok, at)]
                        else old(alerts)
    {
      if n.key !in alerts { return; }
      var s := alerts[n.key];
      if s.incidentGeneration == n.generation {
        s := SetPending(s, n.kind, false);
        if n.kind != Recovery {
          if ok && s.active && (n.kind == First || !s.remindersStopped) {
            s := s.(incidentDelivered := true, lastIncidentDelivery := Some(at));
          }
        } else if ok && !s.active && s.recoveryNeeded {
          s := s.(recoveryNeeded := false, incidentDelivered := false, lastIncidentDelivery := None,
                  remindersStopped := false, reason := "", check := "");
        }
      }
      assert s == Finished(old(alerts)[n.key], n.kind, n.generation, ok, at);
      alerts := alerts[n.key := s];
    }

    /** dispatchHubNotifications when nothing else touches the table meanwhile; results are the sends' outcomes. */
    method Dispatch(ns: seq<Notification>, results: seq<(bool, int)>)
      requires |ns| == |results|
      modifies this`alerts
      ensures alerts == DispatchedAll(old(alerts), ns, results)
    {
      for i := 0 to |ns|
        invariant alerts == DispatchedAll(old(alerts), ns[..i], results[..i])
      {
        assert ns[..i + 1][..i] == ns[..i] && results[..i + 1][..i] == results[..i];
        var go := Recheck(ns[i]);
        if go { Commit(ns[i], results[i].0, results[i].1); }
      }
      assert ns[..|ns|] == ns && results[..|ns|] == results;
    }
  }
}
