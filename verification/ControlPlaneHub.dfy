/** The hub's own methods: loops over the request, and the fields a transfer changes. */
module ControlPlaneHub {
  import opened ControlPlane
  import opened Options

  /** validateControlPlaneTransferRequest: None is the empty code. */
  method Validate(r: Request) returns (refusal: Option<Refusal>)
    ensures refusal == (if !WellFormed(r) then Some(InvalidRequest)
                        else if !ValidRequest(r) then Some(MixedTargetMachine) else None)
  {
    if r.action.Unknown? || !ValidRequestId(r.id) || r.expectedEpoch.None? || r.docKey.None? || r.inflight.None? ||
       !ValidDocKey(r.docKey.value) || |r.lanes| != 2 {
      return Some(InvalidRequest);
    }
    var seen: set<string> := {};
    for i := 0 to |r.lanes|
      invariant seen == set j | 0 <= j < i :: r.lanes[j].lane
      invariant forall j | 0 <= j < i :: ValidMove(r.lanes[j])
      invariant forall j, k | 0 <= j < k < i :: r.lanes[j].lane != r.lanes[k].lane
    {
      var move := r.lanes[i];
      if move.lane in seen || !ValidMove(move) {
        return Some(InvalidRequest);
      }
      seen := seen + {move.lane};
    }
    if r.lanes[0].target.value.machine != r.lanes[1].target.value.machine {
      return Some(MixedTargetMachine);
    }
    return None;
  }

  /** findControlPlaneHistoryRecord, newest first. */
  method FindRecord(history: seq<Record>, id: string) returns (found: Option<Record>)
    ensures found == Find(history, id)
  {
    var index := |history|;
    assert history[..index] == history;
    while index > 0
      invariant 0 <= index <= |history|
      invariant Find(history[..index], id) == Find(history, id)
    {
      index := index - 1;
      if history[index].id == id {
        return Some(history[index]);
      }
      assert history[..index + 1][..index] == history[..index];
    }
    return None;
  }

  method ExpectedRoutesMatch(lanes: seq<LaneMove>, routes: map<string, Route>) returns (ok: bool)
    ensures ok <==> forall i | 0 <= i < |lanes| :: OnExpected(lanes[i], routes)
  {
    for i := 0 to |lanes|
      invariant forall j | 0 <= j < i :: OnExpected(lanes[j], routes)
    {
      if !OnExpected(lanes[i], routes) { return false; }
    }
    return true;
  }

  method AllTargetsReady(lanes: seq<LaneMove>, routes: map<string, Route>, known: set<string>) returns (ok: bool)
    ensures ok <==> forall i | 0 <= i < |lanes| :: TargetReady(lanes[i], routes, known)
  {
    for i := 0 to |lanes|
      invariant forall j | 0 <= j < i :: TargetReady(lanes[j], routes, known)
    {
      if !TargetReady(lanes[i], routes, known) { return false; }
    }
    return true;
  }

  /** orderedControlPlaneReadinessChecks. */
  method OrderChecks(checks: seq<Check>) returns (ordered: Option<seq<Check>>)
    ensures ordered == (if AllPassed(checks) then Some(PASSED) else None)
  {
    if |checks| != |READINESS_NAMES| { return None; }
    var byName: set<string> := {};
    for i := 0 to |checks|
      invariant byName == set j | 0 <= j < i :: checks[j].name
      invariant forall j | 0 <= j < i :: checks[j].ok
      invariant forall j, k | 0 <= j < k < i :: checks[j].name != checks[k].name
    {
      if checks[i].name in byName || !checks[i].ok { return None; }
      byName := byName + {checks[i].name};
    }
    var result: seq<Check> := [];
    for n := 0 to |READINESS_NAMES|
      invariant |result| == n && forall j | 0 <= j < n :: result[j] == Check(READINESS_NAMES[j], true)
      invariant forall j | 0 <= j < n :: READINESS_NAMES[j] in byName
    {
      if READINESS_NAMES[n] !in byName { return None; }
      result := result + [Check(READINESS_NAMES[n], true)];
    }
    assert forall n | 0 <= n < |READINESS_NAMES| :: READINESS_NAMES[n] in byName && Named(checks, READINESS_NAMES[n]);
    assert result == PASSED;
    return Some(result);
  }

  /** commitControlPlaneRoutes. */
  method CommitRoutes(routes: map<string, Route>, lanes: seq<LaneMove>) returns (moved: map<string, Route>)
    requires |lanes| == 2 && forall i | 0 <= i < 2 :: lanes[i].target.Some? && lanes[i].lane in routes
    ensures moved == Committed(routes, lanes)
    ensures moved.Keys == routes.Keys
    ensures forall lane | lane in routes && lane != lanes[0].lane && lane != lanes[1].lane :: moved[lane] == routes[lane]
    ensures lanes[0].lane != lanes[1].lane ==> forall i | 0 <= i < 2 ::
      moved[lanes[i].lane] == Route(lanes[i].target.value.machine, lanes[i].target.value.pane, routes[lanes[i].lane].sink)
  {
    moved := routes;
    for i := 0 to |lanes|
      invariant moved == if i == 0 then routes else if i == 1 then Moved(routes, lanes[0]) else Committed(routes, lanes)
    {
      var route := moved[lanes[i].lane];
      moved := moved[lanes[i].lane := route.(machine := lanes[i].target.value.machine, pane := lanes[i].target.value.pane)];
    }
  }

  class HubServer {
    var file: File
    var policy: Policy

    constructor (file: File, configured: bool)
      ensures this.file == file && policy == Policy(configured, false, {})
    {
      this.file := file;
      policy := Policy(configured, false, {});
    }

    function View(): Hub reads this { Hub(file, policy) }

    method BundleDecision(lanes: seq<LaneMove>) returns (refusal: Option<Refusal>)
      ensures refusal == BundleRefusal(policy, lanes)
    {
      if policy.configured && !policy.loaded { return Some(PolicyUnavailable); }
      if policy.lanes == {} { return None; }
      if |lanes| != |policy.lanes| { return Some(BundleMismatch); }
      for i := 0 to |lanes|
        invariant forall j | 0 <= j < i :: lanes[j].lane in policy.lanes
      {
        if lanes[i].lane !in policy.lanes { return Some(BundleMismatch); }
      }
      return None;
    }

    method Clearance(r: Request, w: World) returns (checks: Option<seq<Check>>)
      requires WellFormed(r)
      ensures checks == (if Cleared(r, file.routes, w) then Some(PASSED) else None)
    {
      if ClaimFlags(r.readiness) != [true, true, true, true, true] { return None; }
      var ordered := OrderChecks(Checks(r, file.routes, w));
      if ordered.None? { return None; }
      var ready := AllTargetsReady(r.lanes, file.routes, w.known);
      if !ready { return None; }
      return ordered;
    }

    method TransferControlPlane(r: Request, w: World) returns (o: Outcome)
      modifies this`file
      ensures View() == After(old(View()), Transfer(r, w))
      ensures o == OutcomeOf(old(View()), r, w)
    {
      var invalid := Validate(r);
      if invalid.Some? { return Denied(invalid.value); }
      var record := FindRecord(file.control.history, r.id);
      if record.Some? {
        if record.value.fingerprint != Print(r) { return Denied(RequestIdConflict); }
        return Answered(FromHistory(record.value));
      }
      var refusal := BundleDecision(r.lanes);
      if refusal.Some? { return Denied(refusal.value); }
      if r.expectedEpoch.value != file.control.epoch { return Denied(StaleEpoch); }
      var matching := ExpectedRoutesMatch(r.lanes, file.routes);
      if !matching { return Denied(RouteMismatch); }
      var next := Next(Current(file.control.state), r.action);
      if next.None? || (r.action == HandoverReady && r.inflight.value != 0) { return Denied(IllegalTransition); }
      var checks: seq<Check> := [];
      if r.action == Commit {
        var clearance := Clearance(r, w);
        if clearance.None? { return Denied(TargetNotReady); }
        checks := clearance.value;
      }
      var change, response := Prepare(r, w, next.value, checks);
      if w.write != NotWritten { file := change; }
      return if w.write == Written then Answered(response) else Denied(WriteFailed);
    }

    /** The snapshot an accepted transfer writes, and its response. */
    method Prepare(r: Request, w: World, state: State, checks: seq<Check>) returns (next: File, response: Response)
      requires WellFormed(r) && forall i | 0 <= i < 2 :: r.lanes[i].lane in file.routes
      requires checks == if r.action == Commit then PASSED else []
      ensures Change(next, response) == Applied(file, r, w, state)
    {
      var control := file.control.(state := state, lastRequestId := r.id, docKey := r.docKey.value, updatedAt := w.now);
      var routes := file.routes;
      if r.action == Commit {
        routes := CommitRoutes(routes, r.lanes);
        control := control.(epoch := (control.epoch + 1) % EPOCHS, owner := r.lanes[0].target.value.machine);
      }
      response := Response(r.id, control.epoch, control.owner, control.state, control.docKey, Projections(routes, r.lanes), checks);
      var history := control.history + [RecordOf(response, Print(r), w.now)];
      if |history| > HISTORY_MAX { history := history[|history| - HISTORY_MAX..]; }
      next := File(routes, control.(history := history));
    }

    /** A policy file that cannot be read leaves the last good set. */
    method ReloadLanes(read: Option<set<string>>)
      modifies this`policy
      ensures View() == After(old(View()), Reload(read))
    {
      if policy.configured && read.Some? { policy := Policy(true, true, read.value); }
    }

    /** A direct lane write: every lane it touches has to pass the authority decision. */
    method WriteLanesDirectly(changes: map<string, Route>, removed: set<string>) returns (allowed: bool)
      modifies this`file
      ensures View() == After(old(View()), WriteLanes(changes, removed))
      ensures !allowed ==> file == old(file)
      ensures allowed ==> changes.Keys + removed !! policy.lanes
    {
      allowed := forall lane | lane in changes.Keys + removed :: MayWrite(policy, lane);
      if allowed {
        file := File((file.routes - removed) + changes, if ShouldPersist(file.control) then file.control else NO_CONTROL);
      }
    }
  }
}
