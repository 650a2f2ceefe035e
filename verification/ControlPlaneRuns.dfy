/** What every run of transfers, direct lane writes and policy reloads keeps. */
module ControlPlaneRuns {
  import opened ControlPlane
  import opened Names
  import opened Options

  // ---------------------------------------------------------------- counting

  function AppliedIn(h: Hub, steps: seq<Step>): nat
    decreases |steps|
  {
    if steps == [] then 0 else (if Applies(h, steps[0]) then 1 else 0) + AppliedIn(After(h, steps[0]), steps[1..])
  }

  function CommitsIn(h: Hub, steps: seq<Step>): nat
    decreases |steps|
  {
    if steps == [] then 0 else (if Commits(h, steps[0]) then 1 else 0) + CommitsIn(After(h, steps[0]), steps[1..])
  }

  /** The records of the transfers applied in a run, oldest first. */
  function Records(h: Hub, steps: seq<Step>): (rs: seq<Record>)
    ensures |rs| == AppliedIn(h, steps)
    decreases |steps|
  {
    if steps == [] then []
    else (if Applies(h, steps[0]) then [NewRecord(h, steps[0])] else []) + Records(After(h, steps[0]), steps[1..])
  }

  function NewRecord(h: Hub, s: Step): Record
    requires Applies(h, s)
  {
    RecordOf(Decide(h.file, h.policy, s.request, s.world).response, Print(s.request), s.world.now)
  }

  // ---------------------------------------------------------------- one step

  lemma StepHistory(h: Hub, s: Step)
    requires |h.file.control.history| <= HISTORY_MAX
    ensures After(h, s).file.control.history ==
      (if Applies(h, s) then Last(h.file.control.history + [NewRecord(h, s)]) else h.file.control.history)
  {
  }

  lemma AppliedEpoch(h: Hub, s: Step)
    requires Applies(h, s)
    ensures After(h, s).file.control.epoch == if Commits(h, s) then (h.file.control.epoch + 1) % EPOCHS else h.file.control.epoch
  {
  }

  lemma OtherEpoch(h: Hub, s: Step)
    requires !Applies(h, s)
    ensures After(h, s).file.control.epoch == h.file.control.epoch
  {
  }

  lemma StepEpoch(h: Hub, s: Step)
    ensures After(h, s).file.control.epoch == if Commits(h, s) then (h.file.control.epoch + 1) % EPOCHS else h.file.control.epoch
  {
    if Applies(h, s) { AppliedEpoch(h, s); } else { OtherEpoch(h, s); }
  }

  /** How many accepted requests can still follow before a commit. */
  function Slack(s: State): nat {
    match Current(s)
    case TransferredUnacked => 3
    case Active => 2
    case Draining => 1
    case _ => 0
  }

  lemma StepSlack(h: Hub, s: Step)
    requires ShouldPersist(h.file.control)
    ensures ShouldPersist(After(h, s).file.control)
    ensures Slack(After(h, s).file.control.state) + (if Applies(h, s) then 1 else 0) <=
            Slack(h.file.control.state) + (if Commits(h, s) then 4 else 0)
  {
  }

  // ---------------------------------------------------------------- whole runs

  /** The epoch n commits later. */
  function Advance(e: nat, n: nat): nat
    decreases n
  {
    if n == 0 then e else Advance((e + 1) % EPOCHS, n - 1)
  }

  lemma AddWraps(e: nat, n: nat)
    requires n >= 1
    ensures ((e + 1) % EPOCHS + (n - 1)) % EPOCHS == (e + n) % EPOCHS
  {
  }

  lemma {:induction false} AdvanceWraps(e: nat, n: nat)
    requires e < EPOCHS
    ensures Advance(e, n) == (e + n) % EPOCHS
    decreases n
  {
    if n > 0 {
      AdvanceWraps((e + 1) % EPOCHS, n - 1);
      AddWraps(e, n);
    }
  }

  lemma {:induction false} EpochAdvances(h: Hub, steps: seq<Step>)
    ensures Run(h, steps).file.control.epoch == Advance(h.file.control.epoch, CommitsIn(h, steps))
    decreases |steps|
  {
    if steps != [] {
      StepEpoch(h, steps[0]);
      EpochAdvances(After(h, steps[0]), steps[1..]);
    }
  }

  /** The epoch has grown by exactly the number of commits, modulo 2^64. */
  lemma EpochCounts(h: Hub, steps: seq<Step>)
    requires h.file.control.epoch < EPOCHS
    ensures Run(h, steps).file.control.epoch == (h.file.control.epoch + CommitsIn(h, steps)) % EPOCHS
  {
    EpochAdvances(h, steps);
    AdvanceWraps(h.file.control.epoch, CommitsIn(h, steps));
  }

  /** Among any four consecutive accepted requests there is a commit. */
  lemma {:induction false} CommitsOften(h: Hub, steps: seq<Step>)
    requires ShouldPersist(h.file.control)
    ensures AppliedIn(h, steps) <= Slack(h.file.control.state) + 4 * CommitsIn(h, steps)
    ensures AppliedIn(h, steps) >= 4 ==> CommitsIn(h, steps) >= 1
    decreases |steps|
  {
    if steps != [] {
      StepSlack(h, steps[0]);
      CommitsOften(After(h, steps[0]), steps[1..]);
    }
  }

  lemma LastLast(a: seq<Record>, b: seq<Record>)
    ensures Last(Last(a) + b) == Last(a + b)
  {
  }

  function StepRecords(h: Hub, s: Step): seq<Record> {
    if Applies(h, s) then [NewRecord(h, s)] else []
  }

  lemma PushThen(before: seq<Record>, added: seq<Record>, rest: seq<Record>, after: seq<Record>)
    requires after == Last(before + added)
    ensures Last(after + rest) == Last(before + (added + rest))
  {
    LastLast(before + added, rest);
    assert before + added + rest == before + (added + rest);
  }

  lemma HistoryStep(h: Hub, s: Step, rest: seq<Record>)
    requires |h.file.control.history| <= HISTORY_MAX
    ensures Last(After(h, s).file.control.history + rest) == Last(h.file.control.history + (StepRecords(h, s) + rest))
  {
    StepHistory(h, s);
    assert h.file.control.history + [] == h.file.control.history;
    PushThen(h.file.control.history, StepRecords(h, s), rest, After(h, s).file.control.history);
  }

  /** The history is always the last eight records. */
  lemma {:induction false} HistoryIsLast(h: Hub, steps: seq<Step>)
    requires |h.file.control.history| <= HISTORY_MAX
    ensures Run(h, steps).file.control.history == Last(h.file.control.history + Records(h, steps))
    decreases |steps|
  {
    if steps == [] {
      assert h.file.control.history + [] == h.file.control.history;
    } else {
      var h' := After(h, steps[0]);
      StepHistory(h, steps[0]);
      HistoryIsLast(h', steps[1..]);
      HistoryStep(h, steps[0], Records(h', steps[1..]));
    }
  }

  // ---------------------------------------------------------------- lookup

  lemma {:induction false} FindNone(history: seq<Record>, id: string)
    ensures Find(history, id).None? <==> forall i | 0 <= i < |history| :: history[i].id != id
  {
    if history != [] {
      FindNone(history[..|history| - 1], id);
    }
  }

  lemma {:induction false} FindNewest(history: seq<Record>, id: string, k: nat)
    requires k < |history| && history[k].id == id && forall i | k < i < |history| :: history[i].id != id
    ensures Find(history, id) == Some(history[k])
  {
    if k < |history| - 1 {
      FindNewest(history[..|history| - 1], id, k);
    }
  }

  /** An applied request was not in the history. */
  lemma AppliedIsNew(h: Hub, s: Step)
    requires Applies(h, s)
    ensures forall i | 0 <= i < |h.file.control.history| :: h.file.control.history[i].id != s.request.id
    ensures NewRecord(h, s).id == s.request.id && NewRecord(h, s).fingerprint == Print(s.request)
    ensures s.request.expectedEpoch.value == h.file.control.epoch
  {
    FindNone(h.file.control.history, s.request.id);
  }

  /** A transfer is applied exactly when it is valid, new, on the bundle, current, allowed, drained, ready, and written. */
  lemma AppliedExactly(h: Hub, r: Request, w: World)
    ensures Applies(h, Transfer(r, w)) <==>
      ValidRequest(r) && (forall i | 0 <= i < |h.file.control.history| :: h.file.control.history[i].id != r.id) &&
      (h.policy.configured ==> h.policy.loaded) &&
      (h.policy.lanes == {} || (|h.policy.lanes| == 2 && r.lanes[0].lane in h.policy.lanes && r.lanes[1].lane in h.policy.lanes)) &&
      r.expectedEpoch.value == h.file.control.epoch &&
      OnExpected(r.lanes[0], h.file.routes) && OnExpected(r.lanes[1], h.file.routes) &&
      Next(Current(h.file.control.state), r.action).Some? &&
      (r.action == HandoverReady ==> r.inflight.value == 0) &&
      (r.action == Commit ==> Cleared(r, h.file.routes, w)) &&
      w.write != NotWritten
  {
    FindNone(h.file.control.history, r.id);
  }

  /** The answer to an accepted transfer tells the file it leaves: the control block, and where its lanes now are, in name order. */
  lemma AnswerTells(h: Hub, s: Step)
    requires Applies(h, s)
    ensures var file := After(h, s).file; var a := Decide(h.file, h.policy, s.request, s.world).response;
      a.id == s.request.id == file.control.lastRequestId && a.epoch == file.control.epoch && a.owner == file.control.owner &&
      a.state == file.control.state && a.docKey == s.request.docKey.value == file.control.docKey &&
      Next(Current(h.file.control.state), s.request.action) == Some(a.state) &&
      a.readiness == (if Commits(h, s) then PASSED else []) &&
      |a.lanes| == 2 && Before(a.lanes[0].lane, a.lanes[1].lane) &&
      {a.lanes[0].lane, a.lanes[1].lane} == {s.request.lanes[0].lane, s.request.lanes[1].lane} &&
      forall i | 0 <= i < 2 :: a.lanes[i].lane in file.routes && a.lanes[i] == Project(file.routes, a.lanes[i].lane)
  {
    BeforeTotal(s.request.lanes[0].lane, s.request.lanes[1].lane);
  }

  /** Where a record stands once one more was added. */
  lemma StillKept(history: seq<Record>, r: Record, k: nat) returns (j: nat)
    requires |history| <= HISTORY_MAX && k < |history| && |history| - k < HISTORY_MAX
    ensures j < |Last(history + [r])| && Last(history + [r])[j] == history[k] && |Last(history + [r])| - j == |history| - k + 1
    ensures |Last(history + [r])| <= HISTORY_MAX
  {
    var all := history + [r];
    j := k - (|all| - |Last(all)|);
  }

  /** While a record is kept, no transfer with its id is applied. */
  lemma {:induction false} NoSecondRecord(h: Hub, steps: seq<Step>, k: nat)
    requires |h.file.control.history| <= HISTORY_MAX && k < |h.file.control.history|
    requires |h.file.control.history| - k + AppliedIn(h, steps) <= HISTORY_MAX
    ensures forall i | 0 <= i < AppliedIn(h, steps) :: Records(h, steps)[i].id != h.file.control.history[k].id
    decreases |steps|
  {
    if steps != [] {
      var history := h.file.control.history;
      StepHistory(h, steps[0]);
      if Applies(h, steps[0]) {
        AppliedIsNew(h, steps[0]);
        var j := StillKept(history, NewRecord(h, steps[0]), k);
        NoSecondRecord(After(h, steps[0]), steps[1..], j);
      } else {
        NoSecondRecord(After(h, steps[0]), steps[1..], k);
      }
    }
  }

  // ---------------------------------------------------------------- exactly once

  /** Fewer than eight later transfers leave a record where a retry finds it. */
  lemma RecordKept(h: Hub, s: Step, steps: seq<Step>)
    requires |h.file.control.history| <= HISTORY_MAX && Applies(h, s) && AppliedIn(After(h, s), steps) < HISTORY_MAX
    ensures Find(Run(After(h, s), steps).file.control.history, s.request.id) == Some(NewRecord(h, s))
  {
    var h1 := After(h, s);
    var history := h1.file.control.history;
    StepHistory(h, s);
    AppliedIsNew(h, s);
    assert history[|history| - 1] == NewRecord(h, s);
    HistoryIsLast(h1, steps);
    NoSecondRecord(h1, steps, |history| - 1);
    var all := history + Records(h1, steps);
    var k := |history| - 1 - (|all| - |Last(all)|);
    assert Last(all)[k] == NewRecord(h, s);
    FindNewest(Last(all), s.request.id, k);
  }

  /** A second transfer with the same id is applied only after eight others pushed the first record out. */
  lemma Evicted(h: Hub, s: Step, steps: seq<Step>, again: Step)
    requires |h.file.control.history| <= HISTORY_MAX
    requires Applies(h, s) && Applies(Run(After(h, s), steps), again) && again.request.id == s.request.id
    ensures AppliedIn(After(h, s), steps) >= 8
  {
    var h2 := Run(After(h, s), steps);
    AppliedIsNew(h2, again);
    FindNone(h2.file.control.history, again.request.id);
    if AppliedIn(After(h, s), steps) < HISTORY_MAX {
      RecordKept(h, s, steps);
    }
  }

  lemma Unfold(h: Hub, s: Step, steps: seq<Step>)
    ensures Run(h, [s] + steps) == Run(After(h, s), steps)
    ensures CommitsIn(h, [s] + steps) >= CommitsIn(After(h, s), steps)
  {
    assert ([s] + steps)[1..] == steps;
  }

  lemma AppliedPersists(h: Hub, s: Step)
    requires |h.file.control.history| <= HISTORY_MAX && Applies(h, s)
    ensures ShouldPersist(After(h, s).file.control)
  {
    StepHistory(h, s);
  }

  lemma Turned(e: nat, c: nat)
    requires e < EPOCHS && (e + c) % EPOCHS == e && c >= 1
    ensures c >= EPOCHS
  {
  }

  /** The epoch stood at the same value before and after, although a commit came between. */
  lemma FullTurn(h: Hub, steps: seq<Step>)
    requires h.file.control.epoch < EPOCHS && Run(h, steps).file.control.epoch == h.file.control.epoch
    requires CommitsIn(h, steps) >= 1
    ensures CommitsIn(h, steps) >= EPOCHS
  {
    EpochCounts(h, steps);
    Turned(h.file.control.epoch, CommitsIn(h, steps));
  }

  /**
   * Two applied transfers with one id and one fingerprint are a full turn of the epoch
   * counter apart: at least 2^64 commits lie between them, the first included.
   */
  lemma ExactlyOnce(h: Hub, s: Step, steps: seq<Step>, again: Step)
    requires |h.file.control.history| <= HISTORY_MAX && h.file.control.epoch < EPOCHS
    requires Applies(h, s) && Applies(Run(After(h, s), steps), again)
    requires again.request.id == s.request.id && Print(again.request) == Print(s.request)
    ensures CommitsIn(h, [s] + steps) >= EPOCHS
  {
    Evicted(h, s, steps, again);
    AppliedPersists(h, s);
    CommitsOften(After(h, s), steps);
    AppliedIsNew(h, s);
    AppliedIsNew(Run(After(h, s), steps), again);
    Unfold(h, s, steps);
    FullTurn(h, [s] + steps);
  }

  // ---------------------------------------------------------------- retries

  /** Two requests have one fingerprint exactly when they ask for the same thing, whatever the order of the lanes. */
  lemma PrintMeans(a: Request, b: Request)
    requires WellFormed(a) && WellFormed(b)
    ensures Print(a) == Print(b) <==>
      a.action == b.action && a.expectedEpoch == b.expectedEpoch && a.docKey == b.docKey && a.inflight == b.inflight &&
      (a.lanes == b.lanes || a.lanes == [b.lanes[1], b.lanes[0]]) && ClaimFlags(a.readiness) == ClaimFlags(b.readiness)
  {
    BeforeTotal(a.lanes[0].lane, a.lanes[1].lane);
    BeforeTotal(b.lanes[0].lane, b.lanes[1].lane);
    assert a.lanes == [a.lanes[0], a.lanes[1]] && b.lanes == [b.lanes[0], b.lanes[1]];
  }

  /** A claim left out and a claim set to false are the same claim. */
  lemma AbsentIsFalse(c: Claims)
    ensures ClaimFlags(Some(c)) == ClaimFlags(Some(Claims(Some(Claimed(c.modelLogin)), Some(Claimed(c.tools)),
              Some(Claimed(c.handoffkeepRead)), Some(Claimed(c.hubRead)), Some(Claimed(c.targetPane)))))
    ensures ClaimFlags(None) == ClaimFlags(Some(Claims(None, Some(false), None, Some(false), None)))
  {
  }

  /**
   * A retry made before eight more transfers were applied is answered with the first
   * response and changes nothing, whatever the epoch, the routes, the policy and the
   * outside world have become.
   */
  lemma RetryReplays(h: Hub, s: Step, steps: seq<Step>, retry: Request, w: World)
    requires |h.file.control.history| <= 8 && Applies(h, s) && AppliedIn(After(h, s), steps) < 8
    requires WellFormed(retry) && retry.id == s.request.id && Print(retry) == Print(s.request)
    ensures var h2 := Run(After(h, s), steps);
      After(h2, Transfer(retry, w)) == h2 &&
      OutcomeOf(h2, retry, w) == Answered(Decide(h.file, h.policy, s.request, s.world).response)
  {
    RecordKept(h, s, steps);
    PrintMeans(retry, s.request);
  }

  // ---------------------------------------------------------------- the strict loader

  predicate RouteLoads(p: Projection) {
    ValidLane(p.lane) && ValidMachine(p.machine) && ValidPane(p.pane)
  }

  predicate RecordLoads(r: Record) {
    ValidRequestId(r.id) && r.state != Unset && |r.routes| == 2 && ValidDocKey(r.docKey) &&
    RouteLoads(r.routes[0]) && RouteLoads(r.routes[1]) && (r.readiness == [] || r.readiness == PASSED)
  }

  /** validateLanesFileControl. */
  predicate Loads(c: Control) {
    (c.owner != "" ==> ValidMachine(c.owner)) &&
    (c.lastRequestId != "" ==> ValidRequestId(c.lastRequestId)) &&
    (c.docKey != "" ==> ValidDocKey(c.docKey)) &&
    |c.history| <= HISTORY_MAX && forall i | 0 <= i < |c.history| :: RecordLoads(c.history[i])
  }

  lemma ProjectionsLoad(file: File, r: Request)
    requires ValidRequest(r) && OnExpected(r.lanes[0], file.routes) && OnExpected(r.lanes[1], file.routes)
    ensures forall i | 0 <= i < 2 :: RouteLoads(Projections(file.routes, r.lanes)[i])
    ensures forall i | 0 <= i < 2 :: RouteLoads(Projections(Committed(file.routes, r.lanes), r.lanes)[i])
  {
  }

  lemma NewRecordLoads(h: Hub, s: Step)
    requires Applies(h, s)
    ensures RecordLoads(NewRecord(h, s))
  {
    ProjectionsLoad(h.file, s.request);
  }

  lemma PushLoads(history: seq<Record>, r: Record)
    requires (forall i | 0 <= i < |history| :: RecordLoads(history[i])) && RecordLoads(r)
    ensures forall i | 0 <= i < |Pushed(history, r)| :: RecordLoads(Pushed(history, r)[i])
  {
    var all := history + [r];
    assert forall i | 0 <= i < |all| :: RecordLoads(all[i]);
  }

  /** The fields of the block an accepted transfer writes, apart from the history. */
  lemma AppliedFields(h: Hub, s: Step)
    requires Applies(h, s)
    ensures var c := After(h, s).file.control;
      c.lastRequestId == s.request.id && ValidRequestId(s.request.id) && ValidDocKey(c.docKey) &&
      (c.owner == h.file.control.owner || ValidMachine(c.owner)) &&
      c.history == Pushed(h.file.control.history, NewRecord(h, s))
  {
  }

  lemma AppliedLoads(h: Hub, s: Step)
    requires Loads(h.file.control) && Applies(h, s)
    ensures Loads(After(h, s).file.control)
  {
    AppliedFields(h, s);
    NewRecordLoads(h, s);
    PushLoads(h.file.control.history, NewRecord(h, s));
  }

  lemma StepLoads(h: Hub, s: Step)
    requires Loads(h.file.control)
    ensures Loads(After(h, s).file.control)
  {
    if Applies(h, s) { AppliedLoads(h, s); }
  }

  /** Every control block a run writes is accepted by the strict loader again. */
  lemma {:induction false} RunLoads(h: Hub, steps: seq<Step>)
    requires Loads(h.file.control)
    ensures Loads(Run(h, steps).file.control)
    decreases |steps|
  {
    if steps != [] {
      StepLoads(h, steps[0]);
      RunLoads(After(h, steps[0]), steps[1..]);
    }
  }

  // ---------------------------------------------------------------- the authority lanes

  /** The policy file always reads as this set, or not at all. */
  predicate FixedPolicy(steps: seq<Step>, lanes: set<string>) {
    forall i | 0 <= i < |steps| :: steps[i].Reload? ==> steps[i].lanes == None || steps[i].lanes == Some(lanes)
  }

  predicate Together(h: Hub) {
    forall lane | lane in h.policy.lanes :: OnMachine(h.file.routes, lane, h.file.control.owner)
  }

  lemma PairIsBundle(a: string, b: string, lanes: set<string>)
    requires a != b && a in lanes && b in lanes && |lanes| == 2
    ensures lanes == {a, b}
  {
    assert |lanes - {a, b}| == |lanes| - |{a, b}|;
  }

  /** A commit moves exactly its two lanes, both to the new owner. */
  lemma CommitMoves(h: Hub, s: Step)
    requires Commits(h, s)
    ensures var file := After(h, s).file; var a, b := s.request.lanes[0].lane, s.request.lanes[1].lane;
      OnMachine(file.routes, a, file.control.owner) && OnMachine(file.routes, b, file.control.owner) &&
      file.routes.Keys == h.file.routes.Keys &&
      forall lane | lane in h.file.routes && lane != a && lane != b :: file.routes[lane] == h.file.routes[lane]
  {
  }

  lemma CommitTogether(h: Hub, s: Step)
    requires Commits(h, s) && h.policy.loaded && |h.policy.lanes| == 2
    ensures Together(After(h, s))
  {
    CommitMoves(h, s);
    var m := s.request.lanes;
    assert m[0].lane in h.policy.lanes && m[1].lane in h.policy.lanes;
    PairIsBundle(m[0].lane, m[1].lane, h.policy.lanes);
  }

  /** Without a commit no authority lane moves, and neither does the owner. */
  lemma OtherSteps(h: Hub, s: Step, lane: string)
    requires !Commits(h, s) && h.policy.loaded && lane in h.policy.lanes && lane in h.file.routes
    ensures var file := After(h, s).file;
      lane in file.routes && file.routes[lane] == h.file.routes[lane] && file.control.owner == h.file.control.owner
  {
    if s.WriteLanes? && After(h, s) != h {
      assert !MayWrite(h.policy, lane);
      assert lane !in s.changes.Keys + s.removed;
    }
  }

  lemma StepTogether(h: Hub, s: Step)
    requires Together(h) && h.policy.loaded && |h.policy.lanes| == 2
    requires s.Reload? ==> s.lanes == None || s.lanes == Some(h.policy.lanes)
    ensures Together(After(h, s))
  {
    if Commits(h, s) {
      CommitTogether(h, s);
    } else {
      forall lane | lane in h.policy.lanes ensures OnMachine(After(h, s).file.routes, lane, After(h, s).file.control.owner) {
        assert OnMachine(h.file.routes, lane, h.file.control.owner);
        OtherSteps(h, s, lane);
      }
    }
  }

  lemma {:induction false} RunTogether(h: Hub, steps: seq<Step>)
    requires h.policy.loaded && |h.policy.lanes| == 2 && FixedPolicy(steps, h.policy.lanes) && Together(h)
    ensures Together(Run(h, steps)) && Run(h, steps).policy == h.policy
    decreases |steps|
  {
    if steps != [] {
      StepTogether(h, steps[0]);
      RunTogether(After(h, steps[0]), steps[1..]);
    }
  }

  /** Under a loaded policy of two lanes, from the first commit on both sit on the control owner's machine. */
  lemma {:induction false} AuthorityTogether(h: Hub, steps: seq<Step>)
    requires h.policy.loaded && |h.policy.lanes| == 2 && FixedPolicy(steps, h.policy.lanes) && CommitsIn(h, steps) >= 1
    ensures Together(Run(h, steps)) && Run(h, steps).policy.lanes == h.policy.lanes
    decreases |steps|
  {
    if Commits(h, steps[0]) {
      CommitTogether(h, steps[0]);
      RunTogether(After(h, steps[0]), steps[1..]);
    } else {
      AuthorityTogether(After(h, steps[0]), steps[1..]);
    }
  }
}
