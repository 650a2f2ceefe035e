/**
 * Control-plane transfer: the lanes file holds the routes and a control block with the
 * epoch, the owner, the transfer state and the last eight accepted requests. All
 * writers hold the file lock, so a run is a sequence of whole operations.
 */
module ControlPlane {
  import opened Names
  import opened Options

  const HISTORY_MAX: nat := 8

  /** The epoch is an unsigned 64-bit counter. */
  const EPOCHS: nat := 0x1_0000_0000_0000_0000

  const OPERATOR: string := "operator"

  datatype Action = Prepare | Drain | HandoverReady | Commit | Ack | Unknown(name: string)

  /** Unset is the empty string of a file that never saw a transfer. */
  datatype State = Unset | Active | Prepared | Draining | Ready | TransferredUnacked

  datatype Place = Place(machine: string, pane: string)

  datatype LaneMove = LaneMove(lane: string, expected: Option<Place>, target: Option<Place>)

  datatype Claims = Claims(modelLogin: Option<bool>, tools: Option<bool>, handoffkeepRead: Option<bool>,
                           hubRead: Option<bool>, targetPane: Option<bool>)

  datatype Request = Request(action: Action, id: string, expectedEpoch: Option<nat>, docKey: Option<string>,
                             inflight: Option<nat>, lanes: seq<LaneMove>, readiness: Option<Claims>)

  datatype Check = Check(name: string, ok: bool)

  datatype Projection = Projection(lane: string, machine: string, pane: string)

  /** What the fingerprint hashes; the hash is taken to be injective. */
  datatype Fingerprint = Fingerprint(action: Action, expectedEpoch: nat, docKey: string, inflight: nat,
                                     lanes: seq<LaneMove>, readiness: seq<bool>)

  datatype Response = Response(id: string, epoch: nat, owner: string, state: State, docKey: string,
                               lanes: seq<Projection>, readiness: seq<Check>)

  datatype Record = Record(id: string, fingerprint: Fingerprint, epoch: nat, owner: string, docKey: string, state: State,
                           routes: seq<Projection>, readiness: seq<Check>, at: int)

  datatype Control = Control(epoch: nat, owner: string, state: State, lastRequestId: string, docKey: string,
                             updatedAt: int, history: seq<Record>)

  datatype Route = Route(machine: string, pane: string, sink: bool)

  datatype File = File(routes: map<string, Route>, control: Control)

  /** The operator's authority lanes: an unconfigured hub has no path. */
  datatype Policy = Policy(configured: bool, loaded: bool, lanes: set<string>)

  datatype Refusal =
    | InvalidRequest | MixedTargetMachine | RequestIdConflict | PolicyUnavailable | BundleMismatch
    | StaleEpoch | RouteMismatch | IllegalTransition | TargetNotReady | WriteFailed

  /** What a write of the lanes file came to. */
  datatype Write = Written | NotWritten | WrittenThenError

  /** What a transfer meets: the clock, the readiness seam, the known machines and the write's outcome. */
  datatype World = World(now: int, checks: Option<seq<Check>>, known: set<string>, write: Write)

  datatype Decision = Replay(response: Response) | Refuse(reason: Refusal) | Change(file: File, response: Response)

  const NO_CONTROL: Control := Control(0, "", Unset, "", "", 0, [])

  const READINESS_NAMES: seq<string> := ["model_login", "tools", "handoffkeep_read", "hub_read", "target_pane"]

  // ---------------------------------------------------------------- names

  predicate ValidLane(s: string) {
    1 <= |s| <= 32 && forall i | 0 <= i < |s| :: Lower(s[i]) || s[i] == '_' || s[i] == '-'
  }

  predicate ValidMachine(s: string) { MachineId(s) && s != OPERATOR }

  /** w<alnum>:p<alnum>, at most 128 bytes. */
  predicate ValidPane(s: string) {
    |s| <= 128 && exists k | 2 <= k < |s| - 2 :: PaneAt(s, k)
  }

  predicate PaneAt(s: string, k: nat)
    requires 2 <= k < |s| - 2
  {
    s[0] == 'w' && s[k] == ':' && s[k + 1] == 'p' &&
    (forall i | 1 <= i < k :: Alnum(s[i])) && (forall i | k + 2 <= i < |s| :: Alnum(s[i]))
  }

  /** A version-4 UUID in either case. */
  predicate ValidRequestId(s: string) {
    |s| == 36 && s[8] == '-' && s[13] == '-' && s[18] == '-' && s[23] == '-' && s[14] == '4' &&
    (s[19] == '8' || s[19] == '9' || s[19] == 'a' || s[19] == 'b' || s[19] == 'A' || s[19] == 'B') &&
    forall i | 0 <= i < 36 && i != 8 && i != 13 && i != 18 && i != 23 :: Hex(s[i])
  }

  /** Unicode white space and control characters. */
  predicate Blank(c: char) {
    c <= ' ' || '\U{7F}' <= c <= '\U{A0}' || c == '\U{1680}' || '\U{2000}' <= c <= '\U{200A}' ||
    c == '\U{2028}' || c == '\U{2029}' || c == '\U{202F}' || c == '\U{205F}' || c == '\U{3000}'
  }

  predicate ValidDocKey(s: string) {
    1 <= |s| <= 200 && forall i | 0 <= i < |s| :: !Blank(s[i])
  }

  predicate ValidPlace(p: Option<Place>) {
    p.Some? && ValidMachine(p.value.machine) && ValidPane(p.value.pane)
  }

  predicate ValidMove(m: LaneMove) {
    ValidLane(m.lane) && ValidPlace(m.expected) && ValidPlace(m.target)
  }

  // ---------------------------------------------------------------- requests

  predicate WellFormed(r: Request) {
    !r.action.Unknown? && ValidRequestId(r.id) && r.expectedEpoch.Some? && r.docKey.Some? && r.inflight.Some? &&
    ValidDocKey(r.docKey.value) && |r.lanes| == 2 && r.lanes[0].lane != r.lanes[1].lane &&
    ValidMove(r.lanes[0]) && ValidMove(r.lanes[1])
  }

  predicate ValidRequest(r: Request) {
    WellFormed(r) && r.lanes[0].target.value.machine == r.lanes[1].target.value.machine
  }

  function Claimed(c: Option<bool>): bool { c == Some(true) }

  function ClaimFlags(c: Option<Claims>): seq<bool> {
    if c.None? then [false, false, false, false, false]
    else [Claimed(c.value.modelLogin), Claimed(c.value.tools), Claimed(c.value.handoffkeepRead),
          Claimed(c.value.hubRead), Claimed(c.value.targetPane)]
  }

  function SortedMoves(lanes: seq<LaneMove>): seq<LaneMove>
    requires |lanes| == 2
  {
    if Before(lanes[1].lane, lanes[0].lane) then [lanes[1], lanes[0]] else lanes
  }

  function Print(r: Request): Fingerprint
    requires WellFormed(r)
  {
    Fingerprint(r.action, r.expectedEpoch.value, r.docKey.value, r.inflight.value, SortedMoves(r.lanes), ClaimFlags(r.readiness))
  }

  // ---------------------------------------------------------------- decisions

  function Current(s: State): State { if s == Unset then Active else s }

  function Next(s: State, a: Action): Option<State> {
    match (s, a)
    case (Active, Prepare) => Some(Prepared)
    case (Active, Drain) => Some(Draining)
    case (Prepared, Commit) => Some(TransferredUnacked)
    case (Draining, HandoverReady) => Some(Ready)
    case (Ready, Commit) => Some(TransferredUnacked)
    case (TransferredUnacked, Ack) => Some(Active)
    case _ => None
  }

  /** The newest record with this request id. */
  function Find(history: seq<Record>, id: string): Option<Record> {
    if history == [] then None
    else if history[|history| - 1].id == id then Some(history[|history| - 1])
    else Find(history[..|history| - 1], id)
  }

  /** controlPlaneBundleDecision: None lets the transfer on. */
  function BundleRefusal(policy: Policy, lanes: seq<LaneMove>): Option<Refusal> {
    if policy.configured && !policy.loaded then Some(PolicyUnavailable)
    else if policy.lanes == {} then None
    else if |lanes| != |policy.lanes| || exists i | 0 <= i < |lanes| :: lanes[i].lane !in policy.lanes then Some(BundleMismatch)
    else None
  }

  predicate MayWrite(policy: Policy, lane: string) {
    !(policy.configured && !policy.loaded) && lane !in policy.lanes
  }

  predicate OnExpected(m: LaneMove, routes: map<string, Route>) {
    m.expected.Some? && m.lane in routes && !routes[m.lane].sink &&
    routes[m.lane].machine == m.expected.value.machine && routes[m.lane].pane == m.expected.value.pane
  }

  predicate OnMachine(routes: map<string, Route>, lane: string, machine: string) {
    lane in routes && !routes[lane].sink && routes[lane].machine == machine
  }

  predicate Known(machine: string, routes: map<string, Route>, known: set<string>) {
    machine in known || exists lane | lane in routes :: OnMachine(routes, lane, machine)
  }

  predicate TargetReady(m: LaneMove, routes: map<string, Route>, known: set<string>) {
    m.target.Some? && ValidPane(m.target.value.pane) && Known(m.target.value.machine, routes, known)
  }

  predicate TargetsReady(r: Request, routes: map<string, Route>, known: set<string>) {
    forall i | 0 <= i < |r.lanes| :: TargetReady(r.lanes[i], routes, known)
  }

  function DefaultChecks(r: Request, routes: map<string, Route>, known: set<string>): seq<Check> {
    var f := ClaimFlags(r.readiness);
    [Check("model_login", f[0]), Check("tools", f[1]), Check("handoffkeep_read", f[2]), Check("hub_read", f[3]),
     Check("target_pane", f[4] && TargetsReady(r, routes, known))]
  }

  function Checks(r: Request, routes: map<string, Route>, w: World): seq<Check> {
    if w.checks.Some? then w.checks.value else DefaultChecks(r, routes, w.known)
  }

  /** Every named check is there, passed, and nothing else is. */
  predicate AllPassed(checks: seq<Check>) {
    |checks| == |READINESS_NAMES| &&
    (forall i | 0 <= i < |checks| :: checks[i].ok) &&
    (forall i, j | 0 <= i < j < |checks| :: checks[i].name != checks[j].name) &&
    (forall n | 0 <= n < |READINESS_NAMES| :: Named(checks, READINESS_NAMES[n]))
  }

  predicate Named(checks: seq<Check>, name: string) {
    exists i | 0 <= i < |checks| :: checks[i].name == name
  }

  const PASSED: seq<Check> :=
    [Check("model_login", true), Check("tools", true), Check("handoffkeep_read", true), Check("hub_read", true),
     Check("target_pane", true)]

  predicate Cleared(r: Request, routes: map<string, Route>, w: World) {
    ClaimFlags(r.readiness) == [true, true, true, true, true] &&
    AllPassed(Checks(r, routes, w)) && TargetsReady(r, routes, w.known)
  }

  function Moved(routes: map<string, Route>, m: LaneMove): map<string, Route>
    requires m.target.Some? && m.lane in routes
  {
    routes[m.lane := routes[m.lane].(machine := m.target.value.machine, pane := m.target.value.pane)]
  }

  function Committed(routes: map<string, Route>, lanes: seq<LaneMove>): map<string, Route>
    requires |lanes| == 2 && forall i | 0 <= i < 2 :: lanes[i].target.Some? && lanes[i].lane in routes
  {
    Moved(Moved(routes, lanes[0]), lanes[1])
  }

  function Project(routes: map<string, Route>, lane: string): Projection {
    if lane in routes then Projection(lane, routes[lane].machine, routes[lane].pane) else Projection(lane, "", "")
  }

  function Projections(routes: map<string, Route>, lanes: seq<LaneMove>): seq<Projection>
    requires |lanes| == 2
  {
    var sorted := SortedMoves(lanes);
    [Project(routes, sorted[0].lane), Project(routes, sorted[1].lane)]
  }

  function RecordOf(r: Response, fingerprint: Fingerprint, now: int): Record {
    Record(r.id, fingerprint, r.epoch, r.owner, r.docKey, r.state, r.lanes, r.readiness, now)
  }

  function FromHistory(r: Record): Response {
    Response(r.id, r.epoch, r.owner, r.state, r.docKey, r.routes, r.readiness)
  }

  function Pushed(history: seq<Record>, r: Record): seq<Record> {
    Last(history + [r])
  }

  function Last(h: seq<Record>): seq<Record> {
    if |h| > HISTORY_MAX then h[|h| - HISTORY_MAX..] else h
  }

  /** The file and the answer of an accepted transfer. */
  function Applied(file: File, r: Request, w: World, state: State): Decision
    requires WellFormed(r) && forall i | 0 <= i < 2 :: r.lanes[i].lane in file.routes
  {
    var commit := r.action == Commit;
    var routes := if commit then Committed(file.routes, r.lanes) else file.routes;
    var epoch := if commit then (file.control.epoch + 1) % EPOCHS else file.control.epoch;
    var owner := if commit then r.lanes[0].target.value.machine else file.control.owner;
    var response := Response(r.id, epoch, owner, state, r.docKey.value, Projections(routes, r.lanes), if commit then PASSED else []);
    Change(File(routes, Control(epoch, owner, state, r.id, r.docKey.value, w.now,
                                Pushed(file.control.history, RecordOf(response, Print(r), w.now)))),
           response)
  }

  /** transferControlPlane's decisions, in its order. */
  function Decide(file: File, policy: Policy, r: Request, w: World): Decision {
    if !WellFormed(r) then Refuse(InvalidRequest)
    else if !ValidRequest(r) then Refuse(MixedTargetMachine)
    else
      var found := Find(file.control.history, r.id);
      if found.Some? && found.value.fingerprint != Print(r) then Refuse(RequestIdConflict)
      else if found.Some? then Replay(FromHistory(found.value))
      else if BundleRefusal(policy, r.lanes).Some? then Refuse(BundleRefusal(policy, r.lanes).value)
      else if r.expectedEpoch.value != file.control.epoch then Refuse(StaleEpoch)
      else if !(OnExpected(r.lanes[0], file.routes) && OnExpected(r.lanes[1], file.routes)) then Refuse(RouteMismatch)
      else
        var next := Next(Current(file.control.state), r.action);
        if next.None? || (r.action == HandoverReady && r.inflight.value != 0) then Refuse(IllegalTransition)
        else if r.action == Commit && !Cleared(r, file.routes, w) then Refuse(TargetNotReady)
        else Applied(file, r, w, next.value)
  }

  // ---------------------------------------------------------------- the hub as a machine

  datatype Hub = Hub(file: File, policy: Policy)

  datatype Outcome = Answered(response: Response) | Denied(reason: Refusal)

  datatype Step =
    | Transfer(request: Request, world: World)
    | WriteLanes(changes: map<string, Route>, removed: set<string>)    // a direct write and the rows it evicts
    | Reload(lanes: Option<set<string>>)                               // None: unreadable or invalid

  predicate ShouldPersist(c: Control) { c.epoch != 0 || c.owner != "" || c.history != [] }

  predicate Applies(h: Hub, s: Step) {
    s.Transfer? && Decide(h.file, h.policy, s.request, s.world).Change? && s.world.write != NotWritten
  }

  predicate Commits(h: Hub, s: Step) {
    Applies(h, s) && s.request.action == Commit
  }

  function OutcomeOf(h: Hub, r: Request, w: World): Outcome {
    var d := Decide(h.file, h.policy, r, w);
    if d.Replay? then Answered(d.response)
    else if d.Refuse? then Denied(d.reason)
    else if w.write == Written then Answered(d.response)
    else Denied(WriteFailed)
  }

  function After(h: Hub, s: Step): Hub {
    match s
    case Transfer(r, w) => if Applies(h, s) then h.(file := Decide(h.file, h.policy, r, w).file) else h
    case WriteLanes(changes, removed) =>
      if forall lane | lane in changes.Keys + removed :: MayWrite(h.policy, lane) then
        h.(file := File((h.file.routes - removed) + changes, if ShouldPersist(h.file.control) then h.file.control else NO_CONTROL))
      else h
    case Reload(lanes) =>
      if h.policy.configured && lanes.Some? then h.(policy := Policy(true, true, lanes.value)) else h
  }

  function Run(h: Hub, steps: seq<Step>): Hub
    decreases |steps|
  {
    if steps == [] then h else Run(After(h, steps[0]), steps[1..])
  }
}
