/** The debounce behind failover events: when a watched machine counts as down, told from its observations alone. */
module HubFailover {
  import opened HubAlert
  import opened HubAlertProofs
  import opened Options

  datatype Phase = Down | Up

  // ---------------------------------------------------------------- the reference

  /** The unbroken run of problem observations at the end. */
  function ProblemRun(obs: seq<Observation>): seq<Observation> {
    if obs == [] || !obs[|obs| - 1].problem then [] else ProblemRun(obs[..|obs| - 1]) + [obs[|obs| - 1]]
  }

  /** How many healthy observations end the sequence. */
  function HealthyRun(obs: seq<Observation>): nat {
    if obs == [] || obs[|obs| - 1].problem then 0 else HealthyRun(obs[..|obs| - 1]) + 1
  }

  function Origin(run: seq<Observation>): int
    requires run != []
  {
    if run[0].since.Some? then run[0].since.value else run[0].now
  }

  /** Observations of the run made when the problem was at least `grace` old. */
  function PastGrace(run: seq<Observation>, origin: int): nat {
    if run == [] then 0
    else PastGrace(run[..|run| - 1], origin) +
         (if run[|run| - 1].now - origin >= run[|run| - 1].grace then 1 else 0)
  }

  function Confirmed(obs: seq<Observation>): nat {
    var run := ProblemRun(obs);
    if run == [] then 0 else PastGrace(run, Origin(run))
  }

  function IsDown(n: nat, obs: seq<Observation>): bool {
    if obs == [] then false
    else if IsDown(n, obs[..|obs| - 1]) then obs[|obs| - 1].problem || HealthyRun(obs) < n
    else obs[|obs| - 1].problem && Confirmed(obs) >= n
  }

  /** A failover event tells that a machine went down or came up. */
  function Edge(was: bool, now: bool): seq<Phase> {
    if !was && now then [Down] else if was && !now then [Up] else []
  }

  /** The failover events the observations call for. */
  function Failovers(n: nat, obs: seq<Observation>): seq<Phase> {
    if obs == [] then []
    else Failovers(n, obs[..|obs| - 1]) + Edge(IsDown(n, obs[..|obs| - 1]), IsDown(n, obs))
  }

  // ---------------------------------------------------------------- what the reference says

  lemma {:induction false} FailoversAlternate(n: nat, obs: seq<Observation>)
    ensures forall i | 0 <= i < |Failovers(n, obs)| :: Failovers(n, obs)[i] == (if i % 2 == 0 then Down else Up)
    ensures |Failovers(n, obs)| % 2 == (if IsDown(n, obs) then 1 else 0)
  {
    if obs != [] {
      var before := obs[..|obs| - 1];
      FailoversAlternate(n, before);
      AlternatePush(Failovers(n, before), IsDown(n, before), IsDown(n, obs));
    }
  }

  lemma AlternatePush(events: seq<Phase>, was: bool, now: bool)
    requires forall i | 0 <= i < |events| :: events[i] == (if i % 2 == 0 then Down else Up)
    requires |events| % 2 == (if was then 1 else 0)
    ensures var more := events + Edge(was, now);
      (forall i | 0 <= i < |more| :: more[i] == (if i % 2 == 0 then Down else Up)) && |more| % 2 == (if now then 1 else 0)
  {
  }

  lemma {:induction false} ProblemRunIsEnd(obs: seq<Observation>)
    ensures |ProblemRun(obs)| <= |obs| && ProblemRun(obs) == obs[|obs| - |ProblemRun(obs)|..]
    ensures forall i | |obs| - |ProblemRun(obs)| <= i < |obs| :: obs[i].problem
    ensures |ProblemRun(obs)| < |obs| ==> !obs[|obs| - |ProblemRun(obs)| - 1].problem
  {
    if obs != [] && obs[|obs| - 1].problem {
      var before := obs[..|obs| - 1];
      ProblemRunIsEnd(before);
      assert obs == before + [obs[|obs| - 1]];
    }
  }

  lemma {:induction false} HealthyRunIsEnd(obs: seq<Observation>)
    ensures HealthyRun(obs) <= |obs| && forall i | |obs| - HealthyRun(obs) <= i < |obs| :: !obs[i].problem
  {
    if obs != [] {
      HealthyRunIsEnd(obs[..|obs| - 1]);
    }
  }

  /** The observations end with problems only, from number k on, of which n were made past the grace period. */
  predicate EndsInProblems(n: nat, obs: seq<Observation>, k: nat) {
    k < |obs| && (forall i | k <= i < |obs| :: obs[i].problem) && PastGrace(obs[k..], Origin(obs[k..])) >= n
  }

  /** A down event ends a run of problem observations, unbroken by a healthy one, of which n were past the grace period. */
  lemma DownNeeds(n: nat, obs: seq<Observation>) returns (k: nat)
    requires obs != [] && !IsDown(n, obs[..|obs| - 1]) && IsDown(n, obs)
    ensures EndsInProblems(n, obs, k) && (k > 0 ==> !obs[k - 1].problem)
  {
    DownConfirmed(n, obs);
    ProblemRunIsEnd(obs);
    k := |obs| - |ProblemRun(obs)|;
    EndsIn(n, obs, k, ProblemRun(obs));
  }

  lemma DownConfirmed(n: nat, obs: seq<Observation>)
    requires obs != [] && !IsDown(n, obs[..|obs| - 1]) && IsDown(n, obs)
    ensures ProblemRun(obs) != [] && PastGrace(ProblemRun(obs), Origin(ProblemRun(obs))) >= n
  {
  }

  lemma EndsIn(n: nat, obs: seq<Observation>, k: nat, run: seq<Observation>)
    requires k < |obs| && run == obs[k..] && (forall i | k <= i < |obs| :: obs[i].problem) && PastGrace(run, Origin(run)) >= n
    ensures EndsInProblems(n, obs, k)
  {
  }

  /** An up event ends n healthy observations in a row. */
  lemma UpNeeds(n: nat, obs: seq<Observation>)
    requires obs != [] && IsDown(n, obs[..|obs| - 1]) && !IsDown(n, obs)
    ensures n <= |obs| && forall i | |obs| - n <= i < |obs| :: !obs[i].problem
  {
    HealthyRunIsEnd(obs);
  }

  /** And nothing more is needed: n healthy observations end an incident, n confirmed problems start one. */
  lemma EnoughFlips(n: nat, obs: seq<Observation>)
    requires obs != []
    ensures n >= 1 && HealthyRun(obs) >= n ==> !IsDown(n, obs)
    ensures obs[|obs| - 1].problem && Confirmed(obs) >= n ==> IsDown(n, obs)
  {
  }

  // ---------------------------------------------------------------- the counters follow the reference

  ghost predicate Tracks(c: Config, s: AlertState, obs: seq<Observation>) {
    s.active == IsDown(c.observations, obs) &&
    (s.active ==> s.clearRuns == HealthyRun(obs)) &&
    (!s.active ==>
       s.clearRuns == 0 && s.badRuns == Confirmed(obs) &&
       s.badSince == (if ProblemRun(obs) == [] then None else Some(Origin(ProblemRun(obs))))) &&
    s.incidentGeneration == Incidents(c.observations, obs)
  }

  /** The number of down events. */
  function Incidents(n: nat, obs: seq<Observation>): nat {
    (|Failovers(n, obs)| + 1) / 2
  }

  lemma IncidentsStep(n: nat, obs: seq<Observation>, o: Observation)
    ensures Incidents(n, obs + [o]) == Incidents(n, obs) + (if !IsDown(n, obs) && IsDown(n, obs + [o]) then 1 else 0)
  {
    assert (obs + [o])[..|obs|] == obs;
    FailoversAlternate(n, obs);
  }

  /** What the debounce reads and writes, and what no send touches. */
  predicate SameCounters(s: AlertState, t: AlertState) {
    s.active == t.active && s.clearRuns == t.clearRuns && s.badRuns == t.badRuns && s.badSince == t.badSince &&
    s.incidentGeneration == t.incidentGeneration
  }

  lemma PastGraceStep(run: seq<Observation>, o: Observation, origin: int)
    ensures PastGrace(run + [o], origin) == PastGrace(run, origin) + (if o.now - origin >= o.grace then 1 else 0)
  {
    assert (run + [o])[..|run|] == run;
  }

  lemma ConfirmedStep(s: AlertState, obs: seq<Observation>, o: Observation)
    requires s.badRuns == Confirmed(obs) && o.problem
    requires s.badSince == (if ProblemRun(obs) == [] then None else Some(Origin(ProblemRun(obs))))
    ensures ProblemRun(obs + [o]) == ProblemRun(obs) + [o]
    ensures Origin(ProblemRun(obs + [o])) == Began(s, o) && Confirmed(obs + [o]) == BadRuns(s, o)
  {
    var run := ProblemRun(obs);
    assert (obs + [o])[..|obs|] == obs;
    PastGraceStep(run, o, Began(s, o));
  }

  lemma ObservedTracks(c: Config, s: AlertState, obs: seq<Observation>, o: Observation)
    requires Tracks(c, s, obs)
    ensures Tracks(c, Observed(c, s, o), obs + [o])
  {
    assert (obs + [o])[..|obs|] == obs;
    IncidentsStep(c.observations, obs, o);
    if o.problem && !s.active { ConfirmedStep(s, obs, o); }
    assert SameCounters(Noted(c, s, o), Observed(c, s, o));
  }

  lemma SendsKeepCounters(w: Watch, f: nat, ok: bool, at: int)
    requires f in w.flights
    ensures SameCounters(w.state, DoCheck(w, f).state) && SameCounters(w.state, DoSend(w, f, ok, at).state)
    ensures w.flights[f].stage.Sent? ==> SameCounters(w.state, DoFinish(w, f).state)
  {
  }

  function Observations(es: seq<Event>): seq<Observation> {
    if es == [] then [] else (if es[0].Observe? then [es[0].o] else []) + Observations(es[1..])
  }

  lemma StepTracks(c: Config, w: Watch, e: Event, obs: seq<Observation>)
    requires Enabled(w, e) && Tracks(c, w.state, obs)
    ensures Tracks(c, Apply(c, w, e).state, Seen(obs, e))
  {
    match e
    case Observe(o) => ObservedTracks(c, w.state, obs, o);
    case Check(f) => SendsKeepCounters(w, f, true, 0);
    case Send(f, ok, at) => SendsKeepCounters(w, f, ok, at);
    case Finish(f) => SendsKeepCounters(w, f, true, 0);
  }

  /** What the observations of an event are added to. */
  function Seen(obs: seq<Observation>, e: Event): seq<Observation> { if e.Observe? then obs + [e.o] else obs }

  lemma SeenFirst(obs: seq<Observation>, es: seq<Event>)
    requires es != []
    ensures Seen(obs, es[0]) + Observations(es[1..]) == obs + Observations(es)
  {
    var rest := Observations(es[1..]);
    if es[0].Observe? {
      Joined(obs, [es[0].o], rest);
    } else {
      assert [] + rest == rest;
    }
  }

  lemma Joined(a: seq<Observation>, b: seq<Observation>, c: seq<Observation>)
    ensures (a + b) + c == a + (b + c)
  {
  }

  lemma {:induction false} RunTracks(c: Config, w: Watch, es: seq<Event>, obs: seq<Observation>)
    requires Legal(c, w, es) && Tracks(c, w.state, obs)
    ensures Tracks(c, Run(c, w, es).state, obs + Observations(es))
    decreases |es|
  {
    if es == [] {
      assert obs + [] == obs;
    } else {
      StepTracks(c, w, es[0], obs);
      RunTracks(c, Apply(c, w, es[0]), es[1..], Seen(obs, es[0]));
      SeenFirst(obs, es);
    }
  }

  /** However sends interleave, the machine is down exactly when its observations say so, in as many incidents as down events. */
  lemma DownFromObservations(c: Config, es: seq<Event>)
    requires Legal(c, IDLE, es)
    ensures var s := Run(c, IDLE, es).state; var obs := Observations(es);
      s.active == IsDown(c.observations, obs) && s.incidentGeneration == Incidents(c.observations, obs)
  {
    RunTracks(c, IDLE, es, []);
    assert [] + Observations(es) == Observations(es);
  }

  // ---------------------------------------------------------------- the events a run emits

  /** observeNodeAlertLocked emits a failover event when an observation opens or closes the alert. */
  function Emits(c: Config, w: Watch, e: Event): seq<Phase>
    requires Enabled(w, e)
  {
    if e.Observe? then Edge(w.state.active, Apply(c, w, e).state.active) else []
  }

  /** All failover events of a run. */
  ghost function Emitted(c: Config, w: Watch, es: seq<Event>): seq<Phase>
    requires Legal(c, w, es)
    decreases |es|
  {
    if es == [] then [] else Emits(c, w, es[0]) + Emitted(c, Apply(c, w, es[0]), es[1..])
  }

  lemma StepEmits(c: Config, w: Watch, e: Event, obs: seq<Observation>)
    requires Enabled(w, e) && Tracks(c, w.state, obs)
    ensures Failovers(c.observations, obs) + Emits(c, w, e) == Failovers(c.observations, Seen(obs, e))
  {
    StepTracks(c, w, e, obs);
    if e.Observe? { assert (obs + [e.o])[..|obs|] == obs; }
  }

  lemma Regroup(a: seq<Phase>, b: seq<Phase>, c: seq<Phase>)
    ensures (a + b) + c == a + (b + c)
  {
  }

  lemma {:induction false} RunEmits(c: Config, w: Watch, es: seq<Event>, obs: seq<Observation>)
    requires Legal(c, w, es) && Tracks(c, w.state, obs)
    ensures Failovers(c.observations, obs) + Emitted(c, w, es) == Failovers(c.observations, obs + Observations(es))
    decreases |es|
  {
    if es == [] {
      assert obs + [] == obs;
    } else {
      StepTracks(c, w, es[0], obs);
      StepEmits(c, w, es[0], obs);
      RunEmits(c, Apply(c, w, es[0]), es[1..], Seen(obs, es[0]));
      SeenFirst(obs, es);
      Regroup(Failovers(c.observations, obs), Emits(c, w, es[0]), Emitted(c, Apply(c, w, es[0]), es[1..]));
    }
  }

  /** A run emits exactly the failover events its observations call for. */
  lemma EmittedFromObservations(c: Config, es: seq<Event>)
    requires Legal(c, IDLE, es)
    ensures Emitted(c, IDLE, es) == Failovers(c.observations, Observations(es))
  {
    RunEmits(c, IDLE, es, []);
    assert [] + Observations(es) == Observations(es);
  }

  /** The events of any run alternate, starting with down, and end with down exactly while the alert is active. */
  lemma EmittedAlternate(c: Config, es: seq<Event>)
    requires Legal(c, IDLE, es)
    ensures forall i | 0 <= i < |Emitted(c, IDLE, es)| :: Emitted(c, IDLE, es)[i] == (if i % 2 == 0 then Down else Up)
    ensures |Emitted(c, IDLE, es)| % 2 == (if Run(c, IDLE, es).state.active then 1 else 0)
  {
    EmittedFromObservations(c, es);
    DownFromObservations(c, es);
    FailoversAlternate(c.observations, Observations(es));
  }

  lemma LastObserved(c: Config, es: seq<Event>, o: Observation)
    requires Legal(c, IDLE, es)
    ensures var w := Run(c, IDLE, es); var obs := Observations(es);
      Emits(c, w, Observe(o)) == Edge(IsDown(c.observations, obs), IsDown(c.observations, obs + [o]))
  {
    RunTracks(c, IDLE, es, []);
    assert [] + Observations(es) == Observations(es);
    StepTracks(c, Run(c, IDLE, es), Observe(o), Observations(es));
  }

  /** The next observation of any run emits down only at the end of an unbroken problem run with n observations past the grace period. */
  lemma EmitsDownNeeds(c: Config, es: seq<Event>, o: Observation) returns (k: nat)
    requires Legal(c, IDLE, es) && Emits(c, Run(c, IDLE, es), Observe(o)) == [Down]
    ensures var obs := Observations(es) + [o]; EndsInProblems(c.observations, obs, k) && (k > 0 ==> !obs[k - 1].problem)
  {
    LastObserved(c, es, o);
    assert (Observations(es) + [o])[..|Observations(es)|] == Observations(es);
    k := DownNeeds(c.observations, Observations(es) + [o]);
  }

  /** And up only at the end of n healthy observations in a row. */
  lemma EmitsUpNeeds(c: Config, es: seq<Event>, o: Observation)
    requires Legal(c, IDLE, es) && Emits(c, Run(c, IDLE, es), Observe(o)) == [Up]
    ensures var obs := Observations(es) + [o];
      c.observations <= |obs| && forall i | |obs| - c.observations <= i < |obs| :: !obs[i].problem
  {
    LastObserved(c, es, o);
    assert (Observations(es) + [o])[..|Observations(es)|] == Observations(es);
    UpNeeds(c.observations, Observations(es) + [o]);
  }
}
