/**
 * When the hub wakes the burst machine and when it lets it sleep: pressure on the
 * source machine, idle time on the target, on-demand requests, and leases that keep the
 * target awake. Times and durations are in nanoseconds.
 */
module Burst {
  import opened Options

  type HoldId = string

  datatype Policy = Policy(source: string, target: string, swapGB: real, load5: real, consecutive: int, idle: int, cooldown: int)

  datatype Load = Load(swapUsedGB: real, load5: real, workers: int)

  datatype BurstState = BurstState(sourceRuns: nat, idleRuns: nat, idleSince: Option<int>, lastUp: Option<int>, lastDown: Option<int>)

  datatype HoldStatus = Active | Expired | Lost | Released

  datatype Hold = Hold(target: string, expiresAt: int, status: HoldStatus)

  type Holds = map<HoldId, Hold>

  datatype Phase = Up | Down

  // ---------------------------------------------------------------- leases

  predicate RunsOut(h: Hold, now: int) { h.status == Expired || (h.status == Active && now >= h.expiresAt) }

  function Swept(holds: Holds, now: int): Holds {
    map id | id in holds && !RunsOut(holds[id], now) :: holds[id]
  }

  function MarkedLost(holds: Holds, target: string): Holds {
    map id | id in holds :: if holds[id].target == target && holds[id].status == Active then holds[id].(status := Lost) else holds[id]
  }

  predicate ActiveFor(holds: Holds, target: string) {
    exists id | id in holds :: holds[id].target == target && holds[id].status == Active
  }

  predicate IsActive(holds: Holds, id: HoldId) { id in holds && holds[id].status == Active }

  // ---------------------------------------------------------------- one heartbeat

  predicate Pressed(p: Policy, l: Load) { l.swapUsedGB >= p.swapGB || l.load5 >= p.load5 }

  predicate Cooled(last: Option<int>, now: int, cooldown: int) { last.None? || now - last.value >= cooldown }

  function SourceRuns(p: Policy, s: BurstState, l: Load): nat { if Pressed(p, l) then s.sourceRuns + 1 else 0 }

  predicate GoesUp(p: Policy, s: BurstState, machine: string, now: int, l: Load) {
    machine == p.source && SourceRuns(p, s, l) >= p.consecutive && Cooled(s.lastUp, now, p.cooldown)
  }

  function AfterSource(p: Policy, s: BurstState, machine: string, now: int, l: Load): BurstState {
    s.(sourceRuns := if machine == p.source then SourceRuns(p, s, l) else s.sourceRuns,
       lastUp := if GoesUp(p, s, machine, now, l) then Some(now) else s.lastUp)
  }

  /** When the target's present idle time began, as of this report. */
  function IdleSince(s: BurstState, now: int, l: Load, held: bool): Option<int> {
    if held || l.workers != 0 then None else if s.idleRuns == 0 then Some(now) else s.idleSince
  }

  predicate GoesDown(p: Policy, s: BurstState, machine: string, now: int, l: Load, held: bool) {
    machine == p.target && !GoesUp(p, s, machine, now, l) &&
    var since := IdleSince(s, now, l, held);
    since.Some? && now - since.value >= p.idle && Cooled(s.lastDown, now, p.cooldown)
  }

  function AfterTarget(p: Policy, s: BurstState, machine: string, now: int, l: Load, held: bool): BurstState {
    if machine != p.target then s
    else s.(idleSince := IdleSince(s, now, l, held),
            idleRuns := if held || l.workers != 0 then 0 else s.idleRuns + 1,
            lastDown := if IdleSince(s, now, l, held).Some? && now - IdleSince(s, now, l, held).value >= p.idle &&
                           Cooled(s.lastDown, now, p.cooldown) then Some(now) else s.lastDown)
  }

  /** observeBurstLocked: an up decision ends the report before the target's part. */
  function Observed(p: Policy, s: BurstState, machine: string, now: int, l: Load, held: bool): BurstState {
    var first := AfterSource(p, s, machine, now, l);
    if GoesUp(p, s, machine, now, l) then first else AfterTarget(p, first, machine, now, l, held)
  }

  function Decision(p: Policy, s: BurstState, machine: string, now: int, l: Load, held: bool): Option<Phase> {
    if GoesUp(p, s, machine, now, l) then Some(Up)
    else if GoesDown(p, s, machine, now, l, held) then Some(Down)
    else None
  }

  // ---------------------------------------------------------------- the hub over time

  /** What the target said in one of its reports, and whether a lease ran then. */
  datatype TargetReport = TargetReport(now: int, workers: int, leased: bool)

  /**
   * With what happened so far: the leases given and their end times, those released or lost with the
   * target, wakes, sleeps, the target's reports and the loads the source reported.
   */
  datatype Hub = Hub(state: BurstState, holds: Holds, clock: int, granted: map<HoldId, int>, ended: set<HoldId>,
                     ups: seq<int>, downs: seq<int>, reports: seq<TargetReport>, loads: seq<Load>)

  /** A lease was given, was neither released nor lost with the target, and its end time is still to come. */
  predicate LeaseRuns(h: Hub, now: int) {
    exists id | id in h.granted :: Running(h, id, now)
  }

  predicate Running(h: Hub, id: HoldId, now: int) { id in h.granted && id !in h.ended && now < h.granted[id] }

  datatype Event =
    | Report(now: int, machine: string, load: Load)
    | Request(now: int)                                   // an on-demand wake that passed its other checks
    | Lease(now: int, id: HoldId, expiresAt: int)         // the woken target gets its lease
    | Release(id: HoldId)
    | TargetLost
    | Sweep(now: int)

  const START: Hub := Hub(BurstState(0, 0, None, None, None), map[], 0, map[], {}, [], [], [], [])

  predicate Enabled(p: Policy, h: Hub, e: Event) {
    match e
    case Report(now, _, _) => now >= h.clock
    case Request(now) => now >= h.clock && (p.cooldown <= 0 || Cooled(h.state.lastUp, now, p.cooldown))
    case Lease(now, id, _) => now >= h.clock && id !in h.granted
    case Release(_) => true
    case TargetLost => true
    case Sweep(now) => now >= h.clock
  }

  function DoReport(p: Policy, h: Hub, now: int, machine: string, l: Load): Hub {
    var looked := machine == p.target && !GoesUp(p, h.state, machine, now, l);
    var holds := if looked then Swept(h.holds, now) else h.holds;
    var held := ActiveFor(holds, machine);
    var d := Decision(p, h.state, machine, now, l, held);
    h.(state := Observed(p, h.state, machine, now, l, held), holds := holds, clock := now,
       ups := if d == Some(Up) then h.ups + [now] else h.ups,
       downs := if d == Some(Down) then h.downs + [now] else h.downs,
       reports := if machine == p.target then
                    h.reports + [TargetReport(now, l.workers, LeaseRuns(h, now))] else h.reports,
       loads := if machine == p.source then h.loads + [l] else h.loads)
  }

  function Apply(p: Policy, h: Hub, e: Event): Hub
    requires Enabled(p, h, e)
  {
    match e
    case Report(now, machine, l) => DoReport(p, h, now, machine, l)
    case Request(now) => h.(state := h.state.(lastUp := Some(now)), ups := h.ups + [now], clock := now)
    case Lease(now, id, expiresAt) =>
      h.(holds := h.holds[id := Hold(p.target, expiresAt, Active)], granted := h.granted[id := expiresAt], clock := now)
    case Release(id) =>
      h.(holds := if IsActive(h.holds, id) then h.holds[id := h.holds[id].(status := Released)] else h.holds,
         ended := if id in h.granted then h.ended + {id} else h.ended)
    case TargetLost => h.(holds := MarkedLost(h.holds, p.target), ended := h.ended + h.granted.Keys)
    case Sweep(now) => h.(holds := Swept(h.holds, now), clock := now)
  }

  // ---------------------------------------------------------------- invariants

  predicate Spaced(times: seq<int>, gap: int, last: Option<int>, clock: int) {
    (times == [] <==> last.None?) && (times != [] ==> last == Some(times[|times| - 1]) && last.value <= clock) &&
    (forall i | 0 < i < |times| :: times[i] - times[i - 1] >= gap && times[i] >= times[i - 1])
  }

  predicate Idling(r: TargetReport) { r.workers == 0 && !r.leased }

  /** How many idle reports in a row end the target's history. */
  function IdleRun(reports: seq<TargetReport>): nat {
    if reports == [] || !Idling(reports[|reports| - 1]) then 0 else IdleRun(reports[..|reports| - 1]) + 1
  }

  /** How many reports under pressure in a row end the source's history. */
  function PressRun(p: Policy, loads: seq<Load>): nat {
    if loads == [] || !Pressed(p, loads[|loads| - 1]) then 0 else PressRun(p, loads[..|loads| - 1]) + 1
  }

  lemma {:induction false} IdleRunIsEnd(reports: seq<TargetReport>)
    ensures IdleRun(reports) <= |reports|
    ensures forall i | |reports| - IdleRun(reports) <= i < |reports| :: Idling(reports[i])
    ensures IdleRun(reports) < |reports| ==> !Idling(reports[|reports| - IdleRun(reports) - 1])
  {
    if reports != [] { IdleRunIsEnd(reports[..|reports| - 1]); }
  }

  /** The last n loads were all at or over a limit of the policy. */
  predicate Strains(p: Policy, loads: seq<Load>, n: int) {
    n <= |loads| && forall i | 0 <= i < |loads| && |loads| - n <= i :: loads[i].swapUsedGB >= p.swapGB || loads[i].load5 >= p.load5
  }

  lemma {:induction false} PressRunMeans(p: Policy, loads: seq<Load>, n: int)
    ensures PressRun(p, loads) >= n <==> Strains(p, loads, n)
  {
    if loads != [] && n > 0 {
      PressRunMeans(p, loads[..|loads| - 1], n - 1);
    }
  }

  /** When the present idle stretch began. */
  function IdleBegan(reports: seq<TargetReport>): Option<int> {
    var n := IdleRun(reports);
    if 0 < n <= |reports| then Some(reports[|reports| - n].now) else None
  }

  lemma RunStep(reports: seq<TargetReport>, r: TargetReport)
    ensures IdleRun(reports + [r]) == if Idling(r) then IdleRun(reports) + 1 else 0
    ensures IdleBegan(reports + [r]) ==
      if !Idling(r) then None else if IdleRun(reports) == 0 then Some(r.now) else IdleBegan(reports)
  {
    assert (reports + [r])[..|reports|] == reports;
    IdleRunIsEnd(reports);
  }

  lemma PressStep(p: Policy, loads: seq<Load>, l: Load)
    ensures PressRun(p, loads + [l]) == if Pressed(p, l) then PressRun(p, loads) + 1 else 0
  {
    assert (loads + [l])[..|loads|] == loads;
  }

  /** The pressure counter is the run that ends the source's history. */
  predicate Presses(p: Policy, h: Hub) { h.state.sourceRuns == PressRun(p, h.loads) }

  /** The idle counter and its start are those of the run that ends the target's history. */
  predicate Idles(h: Hub) { h.state.idleRuns == IdleRun(h.reports) && h.state.idleSince == IdleBegan(h.reports) }

  /** Wakes and sleeps are the cooldown apart. */
  predicate Apart(p: Policy, h: Hub) {
    Spaced(h.ups, p.cooldown, h.state.lastUp, h.clock) && Spaced(h.downs, p.cooldown, h.state.lastDown, h.clock)
  }

  /** An active hold is a lease that was given and not ended, and a lease still running is an active hold. */
  predicate Leases(p: Policy, h: Hub) {
    h.holds.Keys <= h.granted.Keys && h.ended <= h.granted.Keys &&
    (forall id | id in h.holds && h.holds[id].status == Active :: id !in h.ended && h.holds[id] == Hold(p.target, h.granted[id], Active)) &&
    forall id | id in h.granted && Running(h, id, h.clock) :: IsActive(h.holds, id)
  }

  /** The target's reports came in order. */
  predicate Timed(h: Hub) {
    (forall i, j | 0 <= i < j < |h.reports| :: h.reports[i].now <= h.reports[j].now) &&
    forall i | 0 <= i < |h.reports| :: h.reports[i].now <= h.clock
  }

  predicate Inv(p: Policy, h: Hub) { Apart(p, h) && Presses(p, h) && Leases(p, h) && Timed(h) }

  /** What the hub finds in its table after a sweep is whether a lease runs. */
  lemma LeaseMeans(p: Policy, h: Hub, now: int)
    requires Leases(p, h) && h.clock <= now
    ensures ActiveFor(Swept(h.holds, now), p.target) <==> LeaseRuns(h, now)
  {
    var swept := Swept(h.holds, now);
    if id :| id in swept && swept[id].target == p.target && swept[id].status == Active {
      assert id in h.holds && h.holds[id].status == Active;
      assert Running(h, id, now);
    }
    if id :| id in h.granted && Running(h, id, now) {
      assert Running(h, id, h.clock) && IsActive(h.holds, id);
      assert id in swept && swept[id].target == p.target;
    }
  }

  lemma SpacedMore(times: seq<int>, gap: int, last: Option<int>, clock: int, now: int)
    requires Spaced(times, gap, last, clock) && clock <= now && (gap <= 0 || Cooled(last, now, gap))
    ensures Spaced(times + [now], gap, Some(now), now)
  {
  }

  lemma ReportPresses(p: Policy, h: Hub, now: int, machine: string, l: Load)
    requires Presses(p, h)
    ensures Presses(p, DoReport(p, h, now, machine, l))
  {
    PressStep(p, h.loads, l);
  }

  lemma ReportIdles(p: Policy, h: Hub, now: int, machine: string, l: Load)
    requires Idles(h) && Leases(p, h) && h.clock <= now && p.source != p.target
    ensures Idles(DoReport(p, h, now, machine, l))
  {
    LeaseMeans(p, h, now);
    RunStep(h.reports, TargetReport(now, l.workers, LeaseRuns(h, now)));
    IdleRunIsEnd(h.reports);
  }

  lemma ReportUps(p: Policy, h: Hub, now: int, machine: string, l: Load)
    requires Spaced(h.ups, p.cooldown, h.state.lastUp, h.clock) && h.clock <= now
    ensures var h' := DoReport(p, h, now, machine, l); Spaced(h'.ups, p.cooldown, h'.state.lastUp, now)
  {
    var h' := DoReport(p, h, now, machine, l);
    if GoesUp(p, h.state, machine, now, l) {
      SpacedMore(h.ups, p.cooldown, h.state.lastUp, h.clock, now);
    } else {
      assert h'.ups == h.ups && h'.state.lastUp == h.state.lastUp;
    }
  }

  /** What a report does to the sleeps. */
  lemma SleepOrNot(p: Policy, h: Hub, now: int, machine: string, l: Load)
    ensures var h' := DoReport(p, h, now, machine, l);
      (h'.downs == h.downs && h'.state.lastDown == h.state.lastDown) ||
      (h'.downs == h.downs + [now] && h'.state.lastDown == Some(now) && Cooled(h.state.lastDown, now, p.cooldown))
  {
  }

  lemma ReportDowns(p: Policy, h: Hub, now: int, machine: string, l: Load)
    requires Spaced(h.downs, p.cooldown, h.state.lastDown, h.clock) && h.clock <= now
    ensures var h' := DoReport(p, h, now, machine, l); Spaced(h'.downs, p.cooldown, h'.state.lastDown, now)
  {
    SleepOrNot(p, h, now, machine, l);
    if Cooled(h.state.lastDown, now, p.cooldown) { SpacedMore(h.downs, p.cooldown, h.state.lastDown, h.clock, now); }
  }

  /** A sweep at or after the clock, with the clock moved up to it. */
  lemma SweepLeases(p: Policy, h: Hub, h': Hub, now: int, looked: bool)
    requires Leases(p, h) && h.clock <= now && h'.holds == (if looked then Swept(h.holds, now) else h.holds)
    requires h'.granted == h.granted && h'.ended == h.ended && h'.clock == now
    ensures Leases(p, h')
  {
    forall id | id in h'.granted && Running(h', id, now) ensures IsActive(h'.holds, id) {
      assert Running(h, id, h.clock) && IsActive(h.holds, id);
    }
  }

  lemma ReportLeases(p: Policy, h: Hub, now: int, machine: string, l: Load)
    requires Leases(p, h) && h.clock <= now
    ensures Leases(p, DoReport(p, h, now, machine, l)) && DoReport(p, h, now, machine, l).clock == now
  {
    SweepLeases(p, h, DoReport(p, h, now, machine, l), now, machine == p.target && !GoesUp(p, h.state, machine, now, l));
  }

  lemma GrantLeases(p: Policy, h: Hub, now: int, id: HoldId, expiresAt: int)
    requires Leases(p, h) && h.clock <= now && id !in h.granted
    ensures Leases(p, Apply(p, h, Lease(now, id, expiresAt)))
  {
    var h' := Apply(p, h, Lease(now, id, expiresAt));
    forall x | x in h'.granted && Running(h', x, h'.clock) ensures IsActive(h'.holds, x) {
      if x != id { assert Running(h, x, h.clock); }
    }
  }

  lemma EndLeases(p: Policy, h: Hub, e: Event)
    requires Leases(p, h) && (e.Release? || e.TargetLost?)
    ensures Leases(p, Apply(p, h, e))
  {
    var h' := Apply(p, h, e);
    forall x | x in h'.granted && Running(h', x, h'.clock) ensures IsActive(h'.holds, x) {
      assert Running(h, x, h.clock);
    }
  }

  lemma KeepLeases(p: Policy, h: Hub, e: Event)
    requires Leases(p, h) && Enabled(p, h, e)
    ensures Leases(p, Apply(p, h, e))
  {
    match e
    case Report(now, machine, l) => ReportLeases(p, h, now, machine, l);
    case Request(now) => SweepLeases(p, h, Apply(p, h, e), now, false);
    case Lease(now, id, expiresAt) => GrantLeases(p, h, now, id, expiresAt);
    case Sweep(now) => SweepLeases(p, h, Apply(p, h, e), now, true);
    case _ => EndLeases(p, h, e);
  }

  lemma KeepTimed(p: Policy, h: Hub, e: Event)
    requires Timed(h) && Enabled(p, h, e)
    ensures Timed(Apply(p, h, e))
  {
  }

  lemma KeepApart(p: Policy, h: Hub, e: Event)
    requires Apart(p, h) && Enabled(p, h, e)
    ensures Apart(p, Apply(p, h, e))
  {
    match e
    case Report(now, machine, l) =>
      ReportUps(p, h, now, machine, l);
      ReportDowns(p, h, now, machine, l);
    case Request(now) => SpacedMore(h.ups, p.cooldown, h.state.lastUp, h.clock, now);
    case _ =>
  }

  lemma KeepPresses(p: Policy, h: Hub, e: Event)
    requires Presses(p, h) && Enabled(p, h, e)
    ensures Presses(p, Apply(p, h, e))
  {
    match e
    case Report(now, machine, l) => ReportPresses(p, h, now, machine, l);
    case _ =>
  }

  lemma KeepIdles(p: Policy, h: Hub, e: Event)
    requires Idles(h) && Leases(p, h) && Enabled(p, h, e) && p.source != p.target
    ensures Idles(Apply(p, h, e))
  {
    match e
    case Report(now, machine, l) => ReportIdles(p, h, now, machine, l);
    case _ =>
  }

  // ---------------------------------------------------------------- whole runs

  ghost predicate Legal(p: Policy, h: Hub, es: seq<Event>)
    decreases |es|
  {
    es == [] || (Enabled(p, h, es[0]) && Legal(p, Apply(p, h, es[0]), es[1..]))
  }

  ghost function Run(p: Policy, h: Hub, es: seq<Event>): Hub
    requires Legal(p, h, es)
    decreases |es|
  {
    if es == [] then h else Run(p, Apply(p, h, es[0]), es[1..])
  }

  lemma {:induction false} RunInv(p: Policy, h: Hub, es: seq<Event>)
    requires Inv(p, h) && Legal(p, h, es)
    ensures Inv(p, Run(p, h, es))
    decreases |es|
  {
    if es != [] {
      KeepApart(p, h, es[0]);
      KeepPresses(p, h, es[0]);
      KeepLeases(p, h, es[0]);
      KeepTimed(p, h, es[0]);
      RunInv(p, Apply(p, h, es[0]), es[1..]);
    }
  }

  lemma {:induction false} RunIdles(p: Policy, h: Hub, es: seq<Event>)
    requires Idles(h) && Leases(p, h) && Legal(p, h, es) && p.source != p.target
    ensures Idles(Run(p, h, es))
    decreases |es|
  {
    if es != [] {
      KeepIdles(p, h, es[0]);
      KeepLeases(p, h, es[0]);
      RunIdles(p, Apply(p, h, es[0]), es[1..]);
    }
  }

  lemma {:induction false} SpacedAll(times: seq<int>, gap: int, i: nat, j: nat)
    requires i < j < |times| && forall k | 0 < k < |times| :: times[k] - times[k - 1] >= gap && times[k] >= times[k - 1]
    ensures times[j] - times[i] >= gap && times[j] >= times[i]
    decreases j
  {
    if i + 1 < j { SpacedAll(times, gap, i, j - 1); }
  }

  /** Any two wakes, from pressure or on demand, are at least the cooldown apart, and so are any two sleeps. */
  lemma DecisionsApart(p: Policy, es: seq<Event>, i: nat, j: nat)
    requires Legal(p, START, es) && i < j
    ensures var h := Run(p, START, es);
      (j < |h.ups| ==> h.ups[j] - h.ups[i] >= p.cooldown) && (j < |h.downs| ==> h.downs[j] - h.downs[i] >= p.cooldown)
  {
    RunInv(p, START, es);
    var h := Run(p, START, es);
    if j < |h.ups| { SpacedAll(h.ups, p.cooldown, i, j); }
    if j < |h.downs| { SpacedAll(h.downs, p.cooldown, i, j); }
  }

  predicate CooledSince(times: seq<int>, now: int, cooldown: int) {
    times == [] || now - times[|times| - 1] >= cooldown
  }

  /**
   * A report wakes the target exactly when it is the source's, the last reports of the source, as many as the
   * policy asks for, were all at or over one of its limits, and the cooldown since the last wake is over.
   */
  lemma WakesExactly(p: Policy, es: seq<Event>, now: int, machine: string, l: Load)
    requires Legal(p, START, es) && Enabled(p, Run(p, START, es), Report(now, machine, l))
    ensures var h := Run(p, START, es); var h' := Apply(p, h, Report(now, machine, l));
      h'.ups == (if machine == p.source && Strains(p, h.loads + [l], p.consecutive) && CooledSince(h.ups, now, p.cooldown)
                 then h.ups + [now] else h.ups)
  {
    RunInv(p, START, es);
    var h := Run(p, START, es);
    PressStep(p, h.loads, l);
    PressRunMeans(p, h.loads + [l], p.consecutive);
  }

  /** An on-demand request may wake the target exactly when the cooldown since the last wake is over, or there is none. */
  lemma RequestsExactly(p: Policy, es: seq<Event>, now: int)
    requires Legal(p, START, es) && now >= Run(p, START, es).clock
    ensures Enabled(p, Run(p, START, es), Request(now)) <==> p.cooldown <= 0 || CooledSince(Run(p, START, es).ups, now, p.cooldown)
  {
    RunInv(p, START, es);
  }

  /** From report k on every report shows no worker and no lease, and k came long enough ago. */
  predicate IdleFrom(reports: seq<TargetReport>, k: nat, now: int, idle: int) {
    k < |reports| && now - reports[k].now >= idle &&
    forall i | k <= i < |reports| :: reports[i].workers == 0 && !reports[i].leased
  }

  predicate LongIdle(reports: seq<TargetReport>, now: int, idle: int) {
    exists k | 0 <= k < |reports| :: IdleFrom(reports, k, now, idle)
  }

  lemma LongIdleMeans(reports: seq<TargetReport>, now: int, idle: int)
    requires forall i, j | 0 <= i < j < |reports| :: reports[i].now <= reports[j].now
    ensures LongIdle(reports, now, idle) <==> IdleBegan(reports).Some? && now - IdleBegan(reports).value >= idle
  {
    IdleRunIsEnd(reports);
    var n := IdleRun(reports);
    if n > 0 && now - reports[|reports| - n].now >= idle { assert IdleFrom(reports, |reports| - n, now, idle); }
    forall k | 0 <= k < |reports| && IdleFrom(reports, k, now, idle)
      ensures n > 0 && now - reports[|reports| - n].now >= idle
    {
      assert Idling(reports[|reports| - 1]);
      if n < |reports| { assert !Idling(reports[|reports| - n - 1]); }
    }
  }

  /**
   * A report puts the target to sleep exactly when it is the target's, all its reports for at least the idle
   * period showed no worker and no running lease, and the cooldown since the last sleep is over.
   */
  lemma SleepsExactly(p: Policy, es: seq<Event>, now: int, machine: string, l: Load)
    requires Legal(p, START, es) && p.source != p.target && Enabled(p, Run(p, START, es), Report(now, machine, l))
    ensures var h := Run(p, START, es); var h' := Apply(p, h, Report(now, machine, l));
      h'.downs == (if machine == p.target && LongIdle(h.reports + [TargetReport(now, l.workers, LeaseRuns(h, now))], now, p.idle) &&
                      CooledSince(h.downs, now, p.cooldown)
                   then h.downs + [now] else h.downs)
  {
    RunInv(p, START, es);
    RunIdles(p, START, es);
    var h := Run(p, START, es);
    SleepStep(p, h, now, machine, l);
    LongIdleMeans(h.reports + [TargetReport(now, l.workers, LeaseRuns(h, now))], now, p.idle);
  }

  lemma SleepStep(p: Policy, h: Hub, now: int, machine: string, l: Load)
    requires Idles(h) && Leases(p, h) && h.clock <= now
    requires Spaced(h.downs, p.cooldown, h.state.lastDown, h.clock) && p.source != p.target
    ensures var h' := DoReport(p, h, now, machine, l); var reports := h.reports + [TargetReport(now, l.workers, LeaseRuns(h, now))];
      h'.downs == (if machine == p.target && IdleBegan(reports).Some? && now - IdleBegan(reports).value >= p.idle &&
                      CooledSince(h.downs, now, p.cooldown)
                   then h.downs + [now] else h.downs)
  {
    LeaseMeans(p, h, now);
    IdleRunIsEnd(h.reports);
    RunStep(h.reports, TargetReport(now, l.workers, LeaseRuns(h, now)));
  }

  lemma NeverActiveStep(p: Policy, h: Hub, e: Event, id: HoldId)
    requires Enabled(p, h, e) && id in h.granted && !IsActive(h.holds, id)
    ensures var h' := Apply(p, h, e); id in h'.granted && !IsActive(h'.holds, id)
  {
  }

  /** A lease that is no longer active never becomes active again. */
  lemma {:induction false} NeverActiveAgain(p: Policy, h: Hub, es: seq<Event>, id: HoldId)
    requires Legal(p, h, es) && id in h.granted && !IsActive(h.holds, id)
    ensures !IsActive(Run(p, h, es).holds, id)
    decreases |es|
  {
    if es != [] {
      NeverActiveStep(p, h, es[0], id);
      NeverActiveAgain(p, Apply(p, h, es[0]), es[1..], id);
    }
  }

  /** A lease that was released or lost. */
  predicate Over(holds: Holds, id: HoldId, status: HoldStatus) {
    id in holds && holds[id].status == status && (status == Released || status == Lost)
  }

  /** Its record stays in the table for good. */
  lemma {:induction false} OverStays(p: Policy, h: Hub, es: seq<Event>, id: HoldId, status: HoldStatus)
    requires Legal(p, h, es) && id in h.granted && Over(h.holds, id, status)
    ensures Over(Run(p, h, es).holds, id, status) && Run(p, h, es).holds[id] == h.holds[id]
    decreases |es|
  {
    if es != [] {
      OverStep(p, h, es[0], id, status);
      OverStays(p, Apply(p, h, es[0]), es[1..], id, status);
    }
  }

  lemma OverStep(p: Policy, h: Hub, e: Event, id: HoldId, status: HoldStatus)
    requires Enabled(p, h, e) && id in h.granted && Over(h.holds, id, status)
    ensures var h' := Apply(p, h, e); id in h'.granted && id in h'.holds && h'.holds[id] == h.holds[id]
  {
  }

  lemma RunCons(p: Policy, h: Hub, e: Event, es: seq<Event>)
    requires Enabled(p, h, e) && Legal(p, Apply(p, h, e), es)
    ensures Legal(p, h, [e] + es) && Run(p, h, [e] + es) == Run(p, Apply(p, h, e), es)
  {
    assert ([e] + es)[1..] == es;
  }

  // ---------------------------------------------------------------- one machine as source and target

  function Calm(p: Policy): Load { Load(p.swapGB - 1.0, p.load5 - 1.0, 0) }

  function Strained(p: Policy, workers: int): Load { Load(p.swapGB, p.load5, workers) }

  /** The machine has been idle since time 0, and its last k reports showed pressure. */
  predicate IdleUnder(p: Policy, h: Hub, k: nat) {
    h.state == BurstState(k, k + 1, Some(0), None, None) && h.holds == map[] && h.granted == map[] && h.clock == 0 && h.ups == [] && h.downs == []
  }

  lemma CalmReport(p: Policy)
    requires p.source == p.target && p.idle >= 1 && p.consecutive >= 1
    ensures var e := Report(0, p.target, Calm(p)); Enabled(p, START, e) && IdleUnder(p, Apply(p, START, e), 0)
  {
    assert Swept(map[], 0) == map[];
  }

  lemma StrainedReport(p: Policy, h: Hub, k: nat)
    requires p.source == p.target && p.idle >= 1 && IdleUnder(p, h, k) && k + 1 < p.consecutive
    ensures var e := Report(0, p.target, Strained(p, 0)); Enabled(p, h, e) && IdleUnder(p, Apply(p, h, e), k + 1)
  {
    assert Swept(map[], 0) == map[];
  }

  lemma {:induction false} Strain(p: Policy, h: Hub, k: nat) returns (es: seq<Event>)
    requires p.source == p.target && p.idle >= 1 && IdleUnder(p, h, k) && k < p.consecutive
    ensures Legal(p, h, es) && IdleUnder(p, Run(p, h, es), p.consecutive - 1)
    decreases p.consecutive - k
  {
    es := [];
    if k + 1 < p.consecutive {
      var e := Report(0, p.target, Strained(p, 0));
      StrainedReport(p, h, k);
      var more := Strain(p, Apply(p, h, e), k + 1);
      RunCons(p, h, e, more);
      es := [e] + more;
    }
  }

  /** A busy report that wakes the machine is not looked at for its idle time. */
  lemma BusyReport(p: Policy, h: Hub)
    requires p.source == p.target && p.consecutive >= 1 && IdleUnder(p, h, p.consecutive - 1)
    ensures Enabled(p, h, Report(0, p.target, Strained(p, 5)))
    ensures var h' := Apply(p, h, Report(0, p.target, Strained(p, 5)));
      h'.state.idleRuns > 0 && h'.state.idleSince == Some(0) && h'.state.lastDown == None && h'.clock == 0 && h'.holds == map[] && h'.granted == map[] &&
      h'.downs == [] && h'.reports != [] && h'.reports[|h'.reports| - 1] == TargetReport(0, 5, false)
  {
    assert Swept(map[], 0) == map[];
  }

  lemma SleepReport(p: Policy, h: Hub)
    requires p.source == p.target && p.idle >= 1 && p.consecutive >= 1
    requires h.state.idleRuns > 0 && h.state.idleSince == Some(0) && h.state.lastDown == None && h.clock == 0 && h.holds == map[] && h.granted == map[]
    requires h.downs == [] && h.reports != [] && h.reports[|h.reports| - 1] == TargetReport(0, 5, false)
    ensures Enabled(p, h, Report(p.idle, p.target, Calm(p)))
    ensures var h' := Apply(p, h, Report(p.idle, p.target, Calm(p)));
      h'.downs == [p.idle] && |h'.reports| >= 2 && h'.reports[|h'.reports| - 2] == TargetReport(0, 5, false) &&
      IdleBegan(h'.reports) == Some(p.idle)
  {
    assert Swept(map[], p.idle) == map[];
    RunStep(h.reports, TargetReport(p.idle, 0, false));
  }

  /** Under any policy with one machine for both, some run puts the machine to sleep right after a busy report. */
  lemma SameMachineSleepsBusy(p: Policy) returns (es: seq<Event>)
    requires p.source == p.target && p.idle >= 1 && p.consecutive >= 1
    ensures Legal(p, START, es)
    ensures var h := Run(p, START, es);
      h.downs == [p.idle] && |h.reports| >= 2 && h.reports[|h.reports| - 2] == TargetReport(0, 5, false) &&
      IdleBegan(h.reports) == Some(p.idle)
  {
    var e0, e1, e2 := Report(0, p.target, Calm(p)), Report(0, p.target, Strained(p, 5)), Report(p.idle, p.target, Calm(p));
    CalmReport(p);
    var h0 := Apply(p, START, e0);
    var middle := Strain(p, h0, 0);
    var h1 := Run(p, h0, middle);
    BusyReport(p, h1);
    SleepReport(p, Apply(p, h1, e1));
    Append(p, h0, middle, e1);
    Append(p, h0, middle + [e1], e2);
    RunCons(p, START, e0, middle + [e1] + [e2]);
    es := [e0] + (middle + [e1] + [e2]);
  }

  lemma {:induction false} Append(p: Policy, h: Hub, es: seq<Event>, e: Event)
    requires Legal(p, h, es) && Enabled(p, Run(p, h, es), e)
    ensures Legal(p, h, es + [e]) && Run(p, h, es + [e]) == Apply(p, Run(p, h, es), e)
    decreases |es|
  {
    if es == [] {
      assert ([] + [e])[1..] == [];
    } else {
      Append(p, Apply(p, h, es[0]), es[1..], e);
      assert (es + [e])[1..] == es[1..] + [e];
    }
  }
}
