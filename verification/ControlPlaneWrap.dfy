/** Once the epoch counter has gone all the way round, one request can be applied a second time. */
module ControlPlaneWrap {
  import opened Names
  import opened ControlPlane
  import opened ControlPlaneRuns
  import opened Options

  const BASE: string := "00000000-0000-4000-8000-00000000000"
  const DIGITS: string := "0123456789ab"

  const HERE: Option<Place> := Some(Place("m", "w1:p1"))
  const MOVES: seq<LaneMove> := [LaneMove("a", HERE, HERE), LaneMove("b", HERE, HERE)]
  const READY: Option<Claims> := Some(Claims(Some(true), Some(true), Some(true), Some(true), Some(true)))
  const CALM: World := World(0, None, {}, Written)
  const ROUTES: map<string, Route> := map["a" := Route("m", "w1:p1", false), "b" := Route("m", "w1:p1", false)]
  const FRESH: Hub := Hub(File(ROUTES, NO_CONTROL), Policy(false, false, {}))

  /** Twelve request ids, used in turn. */
  function Id(n: nat): string { BASE + [DIGITS[n % 12]] }

  /** Request number n of endless prepare, commit and ack, moving both lanes to where they are. */
  function Ask(n: nat): Request {
    var c := n / 3;
    Request(if n % 3 == 0 then Prepare else if n % 3 == 1 then Commit else Ack, Id(n),
            Some((if n % 3 == 2 then c + 1 else c) % EPOCHS), Some("k"), Some(0), MOVES, READY)
  }

  function Stage(n: nat): State { if n % 3 == 0 then Active else if n % 3 == 1 then Prepared else TransferredUnacked }

  /** The hub after n of them. */
  ghost predicate AfterAsks(h: Hub, n: nat) {
    h.policy == FRESH.policy && h.file.routes == ROUTES && Current(h.file.control.state) == Stage(n) &&
    h.file.control.epoch == ((n + 1) / 3) % EPOCHS && IdsBefore(h.file.control.history, n, Id)
  }

  lemma IdsApart(m: nat, n: nat)
    requires m < n <= m + HISTORY_MAX
    ensures Id(m) != Id(n)
  {
    assert Id(m)[35] == DIGITS[m % 12] && Id(n)[35] == DIGITS[n % 12];
    assert m % 12 != n % 12;
    Digits(m % 12, n % 12);
  }

  lemma Digits(i: nat, j: nat)
    requires i < 12 && j < 12 && i != j
    ensures DIGITS[i] != DIGITS[j]
  {
  }

  lemma IdValid(n: nat)
    ensures ValidRequestId(Id(n))
  {
    var s := Id(n);
    assert Hex(DIGITS[n % 12]);
    forall i | 0 <= i < 36 && i != 8 && i != 13 && i != 18 && i != 23 ensures Hex(s[i]) {
      if i < 35 { assert s[i] == BASE[i]; }
    }
  }

  lemma PlaceValid()
    ensures ValidPlace(HERE)
  {
    assert PaneAt("w1:p1", 2);
  }

  lemma AskValid(n: nat)
    ensures ValidRequest(Ask(n))
  {
    IdValid(n);
    PlaceValid();
    assert ValidMove(MOVES[0]) && ValidMove(MOVES[1]);
  }

  lemma ChecksPassed()
    ensures AllPassed(PASSED)
  {
    forall k | 0 <= k < |READINESS_NAMES| ensures Named(PASSED, READINESS_NAMES[k]) {
      assert PASSED[k].name == READINESS_NAMES[k];
    }
  }

  lemma AskCleared(n: nat)
    ensures Cleared(Ask(n), ROUTES, CALM)
  {
    PlaceValid();
    ChecksPassed();
    assert OnMachine(ROUTES, "a", "m");
    assert TargetsReady(Ask(n), ROUTES, CALM.known);
    assert Checks(Ask(n), ROUTES, CALM) == PASSED;
  }

  lemma RoutesStay()
    ensures Committed(ROUTES, MOVES) == ROUTES
  {
  }

  /** The history holds the ids of the requests before number n, the newest last. */
  ghost predicate IdsBefore(history: seq<Record>, n: nat, id: nat -> string) {
    |history| <= HISTORY_MAX && |history| <= n && forall k | 0 <= k < |history| :: history[k].id == id(n - |history| + k)
  }

  lemma IdsPush(history: seq<Record>, r: Record, n: nat, id: nat -> string)
    requires IdsBefore(history, n, id) && r.id == id(n)
    ensures IdsBefore(Last(history + [r]), n + 1, id)
  {
  }

  lemma IdsNew(history: seq<Record>, n: nat, id: nat -> string)
    requires IdsBefore(history, n, id) && forall m: nat | m < n <= m + HISTORY_MAX :: id(m) != id(n)
    ensures forall k | 0 <= k < |history| :: history[k].id != id(n)
  {
    forall k | 0 <= k < |history| ensures history[k].id != id(n) {
      assert id(n - |history| + k) != id(n);
    }
  }

  lemma AskNew(h: Hub, n: nat)
    requires IdsBefore(h.file.control.history, n, Id)
    ensures forall k | 0 <= k < |h.file.control.history| :: h.file.control.history[k].id != Ask(n).id
  {
    forall m: nat | m < n <= m + HISTORY_MAX ensures Id(m) != Id(n) { IdsApart(m, n); }
    IdsNew(h.file.control.history, n, Id);
  }

  lemma AskFits(n: nat)
    ensures Ask(n).expectedEpoch == Some(((n + 1) / 3) % EPOCHS)
    ensures OnExpected(Ask(n).lanes[0], ROUTES) && OnExpected(Ask(n).lanes[1], ROUTES)
  {
    if n % 3 == 2 {
      assert (n + 1) / 3 == n / 3 + 1;
    } else {
      assert (n + 1) / 3 == n / 3;
    }
  }

  /** Each request is applied. */
  lemma AskApplies(h: Hub, n: nat)
    requires AfterAsks(h, n)
    ensures Applies(h, Transfer(Ask(n), CALM))
  {
    AskValid(n);
    AskNew(h, n);
    AskCleared(n);
    AskFits(n);
    StageNext(n);
    AppliedExactly(h, Ask(n), CALM);
  }

  lemma AskHistory(h: Hub, s: Step, n: nat)
    requires IdsBefore(h.file.control.history, n, Id) && Applies(h, s) && s.request.id == Id(n)
    ensures IdsBefore(After(h, s).file.control.history, n + 1, Id)
  {
    StepHistory(h, s);
    AppliedIsNew(h, s);
    IdsPush(h.file.control.history, NewRecord(h, s), n, Id);
  }

  lemma StageNext(n: nat)
    ensures Next(Stage(n), Ask(n).action) == Some(Stage(n + 1))
  {
  }

  lemma EpochNext(n: nat)
    ensures (if n % 3 == 1 then (((n + 1) / 3) % EPOCHS + 1) % EPOCHS else ((n + 1) / 3) % EPOCHS) == ((n + 2) / 3) % EPOCHS
  {
    if n % 3 == 1 {
      assert (n + 2) / 3 == (n + 1) / 3 + 1;
    } else {
      assert (n + 2) / 3 == (n + 1) / 3;
    }
  }

  lemma AppliedRoutes(h: Hub, s: Step)
    requires Applies(h, s) && s.request.lanes == MOVES && h.file.routes == ROUTES
    ensures After(h, s).file.routes == ROUTES && After(h, s).policy == h.policy
  {
    RoutesStay();
  }

  lemma AskState(h: Hub, s: Step, n: nat)
    requires Applies(h, s) && s.request.action == Ask(n).action && Current(h.file.control.state) == Stage(n)
    ensures Current(After(h, s).file.control.state) == Stage(n + 1)
  {
    StageNext(n);
    AnswerTells(h, s);
  }

  lemma AskEpoch(h: Hub, s: Step, n: nat)
    requires Applies(h, s) && s.request.action == Ask(n).action && h.file.control.epoch == ((n + 1) / 3) % EPOCHS
    ensures After(h, s).file.control.epoch == ((n + 2) / 3) % EPOCHS
  {
    EpochNext(n);
    StepEpoch(h, s);
    AskCommit(n);
  }

  lemma AskCommit(n: nat)
    ensures Ask(n).action == Commit <==> n % 3 == 1
  {
  }

  lemma AskStep(h: Hub, n: nat)
    requires AfterAsks(h, n)
    ensures Applies(h, Transfer(Ask(n), CALM)) && AfterAsks(After(h, Transfer(Ask(n), CALM)), n + 1)
  {
    var s := Transfer(Ask(n), CALM);
    AskApplies(h, n);
    AskHistory(h, s, n);
    AskState(h, s, n);
    AskEpoch(h, s, n);
    AppliedRoutes(h, s);
  }

  function AskNumber(n: nat): Step { Transfer(Ask(n), CALM) }

  /** The hub after the first n steps. */
  function HubAt(step: nat -> Step, n: nat): Hub {
    if n == 0 then FRESH else After(HubAt(step, n - 1), step(n - 1))
  }

  /** Steps number n to n + count - 1. */
  function Listed(step: nat -> Step, n: nat, count: nat): seq<Step>
    decreases count
  {
    if count == 0 then [] else [step(n)] + Listed(step, n + 1, count - 1)
  }

  lemma HubNext(step: nat -> Step, n: nat)
    ensures HubAt(step, n + 1) == After(HubAt(step, n), step(n))
  {
  }

  lemma RunNext(h: Hub, s: Step, h': Hub, steps: seq<Step>, rest: seq<Step>)
    requires h' == After(h, s) && steps == [s] + rest
    ensures Run(h, steps) == Run(h', rest)
  {
    Unfold(h, s, rest);
  }

  lemma {:induction false} RunListed(step: nat -> Step, n: nat, count: nat)
    ensures Run(HubAt(step, n), Listed(step, n, count)) == HubAt(step, n + count)
    decreases count
  {
    if count > 0 {
      HubNext(step, n);
      RunNext(HubAt(step, n), step(n), HubAt(step, n + 1), Listed(step, n, count), Listed(step, n + 1, count - 1));
      RunListed(step, n + 1, count - 1);
    }
  }

  lemma FreshAfterAsks()
    ensures AfterAsks(FRESH, 0)
  {
  }

  lemma {:induction false} HubAfterAsks(n: nat)
    ensures AfterAsks(HubAt(AskNumber, n), n)
  {
    if n == 0 {
      FreshAfterAsks();
    } else {
      HubAfterAsks(n - 1);
      AskStep(HubAt(AskNumber, n - 1), n - 1);
    }
  }

  lemma SameAgain()
    ensures Ask(3 * EPOCHS) == Ask(0)
  {
  }

  /** Which of the requests are commits. */
  lemma AskCommits(h: Hub, n: nat)
    requires AfterAsks(h, n)
    ensures Commits(h, Transfer(Ask(n), CALM)) <==> n % 3 == 1
  {
    AskApplies(h, n);
  }

  /** Step m leads from hub m to the next one, and commits if it is a third one. */
  ghost predicate Turn(step: nat -> Step, hub: nat -> Hub, m: nat) {
    hub(m + 1) == After(hub(m), step(m)) && (Commits(hub(m), step(m)) <==> m % 3 == 1)
  }

  function Third(n: nat): nat { (n + 1) / 3 }

  lemma ThirdNext(n: nat)
    ensures Third(n + 1) == Third(n) + (if n % 3 == 1 then 1 else 0)
  {
  }

  lemma CommitsNext(h: Hub, s: Step, h': Hub, rest: seq<Step>, one: nat, more: nat)
    requires h' == After(h, s) && one == (if Commits(h, s) then 1 else 0) && CommitsIn(h', rest) == more
    ensures CommitsIn(h, [s] + rest) == one + more
  {
    assert ([s] + rest)[1..] == rest;
  }

  lemma ListedNext(step: nat -> Step, n: nat, count: nat)
    requires count > 0
    ensures Listed(step, n, count) == [step(n)] + Listed(step, n + 1, count - 1)
  {
  }

  lemma TurnCommits(step: nat -> Step, hub: nat -> Hub, n: nat, rest: seq<Step>, more: nat)
    requires Turn(step, hub, n) && CommitsIn(hub(n + 1), rest) == more
    ensures CommitsIn(hub(n), [step(n)] + rest) == Third(n + 1) - Third(n) + more
  {
    ThirdNext(n);
    CommitsNext(hub(n), step(n), hub(n + 1), rest, Third(n + 1) - Third(n), more);
  }

  lemma {:induction false} CommitsListed(step: nat -> Step, hub: nat -> Hub, n: nat, count: nat)
    requires forall m: nat :: Turn(step, hub, m)
    ensures CommitsIn(hub(n), Listed(step, n, count)) == Third(n + count) - Third(n)
    decreases count
  {
    if count > 0 {
      ListedNext(step, n, count);
      CommitsListed(step, hub, n + 1, count - 1);
      TurnCommits(step, hub, n, Listed(step, n + 1, count - 1), Third(n + count) - Third(n + 1));
    }
  }

  lemma AskTurn(hub: nat -> Hub, m: nat)
    requires hub(m) == HubAt(AskNumber, m) && hub(m + 1) == HubAt(AskNumber, m + 1)
    ensures Turn(AskNumber, hub, m)
  {
    HubNext(AskNumber, m);
    AskCommitsAt(hub(m), m);
  }

  lemma AskCommitsAt(h: Hub, m: nat)
    requires h == HubAt(AskNumber, m)
    ensures Commits(h, AskNumber(m)) <==> m % 3 == 1
  {
    HubAfterAsks(m);
    AskCommits(h, m);
  }

  /** In k turns of prepare, commit and ack there are k commits. */
  lemma TurnsCommit(k: nat)
    requires k >= 1
    ensures CommitsIn(FRESH, [AskNumber(0)] + Listed(AskNumber, 1, 3 * k - 1)) == k
  {
    var hub := (m: nat) => HubAt(AskNumber, m);
    forall m: nat ensures Turn(AskNumber, hub, m) { AskTurn(hub, m); }
    CommitsListed(AskNumber, hub, 0, 3 * k);
    assert hub(0) == FRESH;
    assert Listed(AskNumber, 0, 3 * k) == [AskNumber(0)] + Listed(AskNumber, 1, 3 * k - 1);
  }

  /** The very first request, applied on a fresh hub, is applied once more after exactly 2^64 commits. */
  lemma AppliedTwice() returns (steps: seq<Step>)
    ensures var s := Transfer(Ask(0), CALM); Applies(FRESH, s) && Applies(Run(After(FRESH, s), steps), s)
    ensures CommitsIn(FRESH, [Transfer(Ask(0), CALM)] + steps) == EPOCHS
  {
    TurnsCommit(EPOCHS);
    steps := Listed(AskNumber, 1, 3 * EPOCHS - 1);
    RunListed(AskNumber, 1, 3 * EPOCHS - 1);
    FreshAfterAsks();
    AskApplies(FRESH, 0);
    HubAfterAsks(3 * EPOCHS);
    AskApplies(HubAt(AskNumber, 3 * EPOCHS), 3 * EPOCHS);
    SameAgain();
    assert HubAt(AskNumber, 1) == After(FRESH, AskNumber(0));
  }
}
