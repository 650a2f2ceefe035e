/** What a transfer is answered and what it writes, in the fields of the request and the file. */
module ControlPlaneAnswers {
  import opened ControlPlane
  import opened ControlPlaneRuns
  import opened Names
  import opened Options

  // ---------------------------------------------------------------- names

  predicate Word(s: string) { s != "" && forall i | 0 <= i < |s| :: Alnum(s[i]) }

  /** A pane is two words, one after w and one after :p. */
  lemma PaneMeans(s: string)
    ensures ValidPane(s) <==> |s| <= 128 && exists a, b :: Word(a) && Word(b) && s == "w" + a + ":p" + b
  {
    if ValidPane(s) {
      var k :| 2 <= k < |s| - 2 && PaneAt(s, k);
      assert s == "w" + s[1..k] + ":p" + s[k + 2..];
      assert Word(s[1..k]) && Word(s[k + 2..]);
    }
    forall a, b | |s| <= 128 && Word(a) && Word(b) && s == "w" + a + ":p" + b ensures ValidPane(s) {
      PaneJoined(a, b);
    }
  }

  lemma PaneJoined(a: string, b: string)
    requires Word(a) && Word(b) && |a| + |b| <= 125
    ensures ValidPane("w" + a + ":p" + b)
  {
    var s, k := "w" + a + ":p" + b, |a| + 1;
    assert forall i | 1 <= i < k :: s[i] == a[i - 1];
    assert forall i | k + 2 <= i < |s| :: s[i] == b[i - k - 2];
    assert PaneAt(s, k);
  }

  predicate HexWord(s: string, n: nat) { |s| == n && forall i | 0 <= i < n :: Hex(s[i]) }

  predicate IsUuid(s: string, a: string, b: string, c: string, d: string, e: string) {
    HexWord(a, 8) && HexWord(b, 4) && HexWord(c, 4) && HexWord(d, 4) && HexWord(e, 12) && c[0] == '4' && d[0] in "89abAB" &&
    s == a + "-" + b + "-" + c + "-" + d + "-" + e
  }

  /** A request id is five words of hexadecimal digits, of 8, 4, 4, 4 and 12, with the marks of a random UUID. */
  lemma RequestIdMeans(s: string)
    ensures ValidRequestId(s) <==> exists a, b, c, d, e :: IsUuid(s, a, b, c, d, e)
  {
    if ValidRequestId(s) {
      assert s == s[..8] + "-" + s[9..13] + "-" + s[14..18] + "-" + s[19..23] + "-" + s[24..];
      assert IsUuid(s, s[..8], s[9..13], s[14..18], s[19..23], s[24..]);
    }
  }

  /** The characters unicode.IsSpace accepts. */
  predicate IsSpace(c: char) {
    c in {'\t', '\n', '\U{0B}', '\U{0C}', '\r', ' ', '\U{85}', '\U{A0}', '\U{1680}', '\U{2028}', '\U{2029}', '\U{202F}', '\U{205F}', '\U{3000}'} ||
    '\U{2000}' <= c <= '\U{200A}'
  }

  /** ... and unicode.IsControl. */
  predicate IsControl(c: char) { c < ' ' || '\U{7F}' <= c < '\U{A0}' }

  lemma DocKeyMeans(s: string)
    ensures ValidDocKey(s) <==> 1 <= |s| <= 200 && forall i | 0 <= i < |s| :: !IsSpace(s[i]) && !IsControl(s[i])
  {
    forall i | 0 <= i < |s| ensures Blank(s[i]) <==> IsSpace(s[i]) || IsControl(s[i]) {}
  }

  function Letters(n: nat): string { seq(n, i => 'a') }

  /** How long names may be. */
  lemma NameLengths(n: nat)
    ensures ValidLane(Letters(n)) <==> 1 <= n <= 32
    ensures ValidMachine(Letters(n)) <==> 1 <= n <= 63
    ensures ValidDocKey(Letters(n)) <==> 1 <= n <= 200
  {
    assert n > 0 ==> Letters(n)[0] == 'a';
    assert OPERATOR[0] == 'o';
    assert forall i | 0 <= i < n :: !Blank(Letters(n)[i]);
  }

  // ---------------------------------------------------------------- what a commit moves

  /** The answer's word on a lane. */
  predicate Tells(a: Response, lane: string, place: Place) {
    exists j | 0 <= j < |a.lanes| :: a.lanes[j] == Projection(lane, place.machine, place.pane)
  }

  /** After a commit each lane sits on exactly the machine and pane asked for, and the answer says so. */
  lemma CommitLands(h: Hub, s: Step, i: nat)
    requires Commits(h, s) && i < 2
    ensures s.request.lanes[i].target.Some?
    ensures var m := s.request.lanes[i]; var file := After(h, s).file;
      m.lane in file.routes && file.routes[m.lane] == Route(m.target.value.machine, m.target.value.pane, false) &&
      Tells(Decide(h.file, h.policy, s.request, s.world).response, m.lane, m.target.value)
  {
    var m, routes := s.request.lanes[i], After(h, s).file.routes;
    var a := Decide(h.file, h.policy, s.request, s.world).response;
    LandedRoutes(h.file.routes, s.request.lanes, i);
    assert a.lanes == Projections(routes, s.request.lanes);
    ToldLane(routes, s.request.lanes, i);
  }

  lemma LandedRoutes(routes: map<string, Route>, lanes: seq<LaneMove>, i: nat)
    requires |lanes| == 2 && lanes[0].lane != lanes[1].lane && i < 2
    requires forall j | 0 <= j < 2 :: lanes[j].target.Some? && lanes[j].lane in routes && !routes[lanes[j].lane].sink
    ensures lanes[i].lane in Committed(routes, lanes)
    ensures Committed(routes, lanes)[lanes[i].lane] == Route(lanes[i].target.value.machine, lanes[i].target.value.pane, false)
  {
  }

  lemma ToldLane(routes: map<string, Route>, lanes: seq<LaneMove>, i: nat)
    requires |lanes| == 2 && i < 2 && lanes[i].lane in routes
    ensures var at := routes[lanes[i].lane]; var ps := Projections(routes, lanes);
      exists j | 0 <= j < |ps| :: ps[j] == Projection(lanes[i].lane, at.machine, at.pane)
  {
    var ps, at := Projections(routes, lanes), routes[lanes[i].lane];
    var first := SortedMoves(lanes)[0] == lanes[i];
    assert ps[if first then 0 else 1] == Projection(lanes[i].lane, at.machine, at.pane);
  }

  /** An applied transfer is stamped with the time, and the newest record keeps all of its answer. */
  lemma RecordTells(h: Hub, s: Step)
    requires Applies(h, s)
    ensures var c := After(h, s).file.control; var a := Decide(h.file, h.policy, s.request, s.world).response;
      c.updatedAt == s.world.now && c.history != [] &&
      c.history[|c.history| - 1] ==
        Record(a.id, Print(s.request), a.epoch, a.owner, a.docKey, a.state, a.lanes, a.readiness, s.world.now)
  {
  }

  /** No other transfer touches a route, the epoch or the owner; an answered one is told where its lanes are. */
  lemma OthersStay(h: Hub, r: Request, w: World)
    ensures var file := After(h, Transfer(r, w)).file;
      !Commits(h, Transfer(r, w)) ==>
        file.routes == h.file.routes && file.control.epoch == h.file.control.epoch && file.control.owner == h.file.control.owner
    ensures var file := After(h, Transfer(r, w)).file;
      Commits(h, Transfer(r, w)) ==>
        file.control.epoch == (h.file.control.epoch + 1) % 0x1_0000_0000_0000_0000 &&
        file.control.owner == r.lanes[0].target.value.machine
  {
  }

  /** A direct write that touches a lane is made exactly when the policy is known and the write touches none of its lanes. */
  lemma WritesExactly(h: Hub, changes: map<string, Route>, removed: set<string>, lane: string)
    ensures var h' := After(h, WriteLanes(changes, removed));
      var touched := changes.Keys + removed;
      var made := touched == {} || ((h.policy.configured ==> h.policy.loaded) && touched !! h.policy.lanes);
      h'.policy == h.policy && (!made ==> h' == h) &&
      (made ==>
         (lane in h'.file.routes <==> lane in changes || (lane in h.file.routes && lane !in removed)) &&
         (lane in h'.file.routes ==> h'.file.routes[lane] == (if lane in changes then changes[lane] else h.file.routes[lane])) &&
         (h.file.control.epoch != 0 || h.file.control.owner != "" || h.file.control.history != [] ==>
            h'.file.control == h.file.control))
  {
    var touched := changes.Keys + removed;
    if touched !! h.policy.lanes {
      assert forall x | x in touched :: x !in h.policy.lanes;
    } else {
      var x :| x in touched && x in h.policy.lanes;
      assert !MayWrite(h.policy, x);
    }
    if touched != {} && !(h.policy.configured ==> h.policy.loaded) {
      var x :| x in touched;
      assert !MayWrite(h.policy, x);
    }
  }

  /** A policy file that reads replaces the lanes of a hub that has one; any other leaves the policy as it was. */
  lemma ReloadsExactly(h: Hub, read: Option<set<string>>)
    ensures var h' := After(h, Reload(read));
      h'.file == h.file && h'.policy.configured == h.policy.configured &&
      (if h.policy.configured && read.Some? then h'.policy.loaded && h'.policy.lanes == read.value else h'.policy == h.policy)
  {
  }

  // ---------------------------------------------------------------- which actions follow which

  /** The action may be taken from this state. */
  predicate Follows(s: State, a: Action) {
    match a
    case Prepare => s == Unset || s == Active
    case Drain => s == Unset || s == Active
    case HandoverReady => s == Draining
    case Commit => s == Prepared || s == Ready
    case Ack => s == TransferredUnacked
    case Unknown(_) => false
  }

  /** The state an accepted action leaves, whatever it was before. */
  function Leaves(a: Action): State {
    match a
    case Prepare => Prepared
    case Drain => Draining
    case HandoverReady => Ready
    case Commit => TransferredUnacked
    case Ack => Active
    case Unknown(_) => Unset
  }

  lemma NextMeans(s: State, a: Action)
    ensures Next(Current(s), a) == if Follows(s, a) then Some(Leaves(a)) else None
  {
  }

  /** The actions of the transfers applied in a run. */
  function Actions(h: Hub, steps: seq<Step>): seq<Action>
    decreases |steps|
  {
    if steps == [] then []
    else (if Applies(h, steps[0]) then [steps[0].request.action] else []) + Actions(After(h, steps[0]), steps[1..])
  }

  /** Action b may come right after action a. */
  predicate Succeeds(a: Action, b: Action) {
    (a == Prepare && b == Commit) || (a == Drain && b == HandoverReady) || (a == HandoverReady && b == Commit) ||
    (a == Commit && b == Ack) || (a == Ack && (b == Prepare || b == Drain))
  }

  /** A round begins with a prepare or a drain, and each action comes right after its predecessor. */
  predicate Rounds(actions: seq<Action>) {
    (actions != [] ==> actions[0] == Prepare || actions[0] == Drain) && Linked(actions)
  }

  predicate Linked(actions: seq<Action>) {
    forall i | 0 < i < |actions| :: Succeeds(actions[i - 1], actions[i])
  }

  lemma AppliedState(h: Hub, s: Step)
    requires Applies(h, s)
    ensures Follows(h.file.control.state, s.request.action) && After(h, s).file.control.state == Leaves(s.request.action)
    ensures |After(h, s).file.control.history| > 0
  {
    NextMeans(h.file.control.state, s.request.action);
  }

  lemma OtherState(h: Hub, s: Step)
    requires !Applies(h, s)
    ensures var c := After(h, s).file.control; c == h.file.control || (!ShouldPersist(h.file.control) && c == NO_CONTROL)
  {
  }

  /** The block stands where the last action left it. */
  predicate StandsAfter(c: Control, last: Action) { c.state == Leaves(last) && c.history != [] && !last.Unknown? }

  lemma {:induction false} ActionsAfter(h: Hub, steps: seq<Step>, last: Action)
    requires StandsAfter(h.file.control, last)
    ensures Linked([last] + Actions(h, steps))
    decreases |steps|
  {
    if steps != [] {
      var h' := After(h, steps[0]);
      if Applies(h, steps[0]) {
        var a := steps[0].request.action;
        AppliedState(h, steps[0]);
        ActionsAfter(h', steps[1..], a);
        Turn(h.file.control.state, last, a);
        ChainFront(last, [a] + Actions(h', steps[1..]));
        assert Actions(h, steps) == [a] + Actions(h', steps[1..]);
      } else {
        OtherState(h, steps[0]);
        ActionsAfter(h', steps[1..], last);
        assert Actions(h, steps) == Actions(h', steps[1..]);
      }
    }
  }

  lemma Turn(s: State, last: Action, a: Action)
    requires s == Leaves(last) && !last.Unknown? && Follows(s, a)
    ensures Succeeds(last, a)
  {
  }

  lemma ChainFront(last: Action, rest: seq<Action>)
    requires rest != [] && Succeeds(last, rest[0]) && Linked(rest)
    ensures Linked([last] + rest)
  {
    var run := [last] + rest;
    forall i | 0 < i < |run| ensures Succeeds(run[i - 1], run[i]) {
      assert run[i] == rest[i - 1];
      if i > 1 { assert run[i - 1] == rest[i - 2]; }
    }
  }

  /**
   * The applied transfers of any run from a block at rest come in rounds: prepare, commit, ack or
   * drain, handover-ready, commit, ack. So a commit follows a prepare, or a drain and a handover.
   */
  lemma {:induction false} RunRounds(h: Hub, steps: seq<Step>)
    requires h.file.control.state == Unset || h.file.control.state == Active
    ensures Rounds(Actions(h, steps))
    decreases |steps|
  {
    if steps != [] {
      var h' := After(h, steps[0]);
      if Applies(h, steps[0]) {
        var a := steps[0].request.action;
        AppliedState(h, steps[0]);
        ActionsAfter(h', steps[1..], a);
        assert Actions(h, steps) == [a] + Actions(h', steps[1..]);
      } else {
        OtherState(h, steps[0]);
        RunRounds(h', steps[1..]);
        assert Actions(h, steps) == Actions(h', steps[1..]);
      }
    }
  }

  // ---------------------------------------------------------------- when a commit is cleared

  /** Each claim is there and true. */
  predicate ClaimsAll(c: Option<Claims>) {
    c.Some? && c.value == Claims(Some(true), Some(true), Some(true), Some(true), Some(true))
  }

  /** The machine is known from its node or as a place some lane is routed to. */
  predicate KnownMachine(h: Hub, w: World, machine: string) {
    machine in w.known ||
    exists lane | lane in h.file.routes :: !h.file.routes[lane].sink && h.file.routes[lane].machine == machine
  }

  /** The readiness seam, where there is one, passed each of the five checks once and nothing else. */
  predicate SeamPasses(w: World) {
    w.checks.Some? ==>
      var checks := w.checks.value;
      |checks| == 5 && (forall i | 0 <= i < 5 :: checks[i].ok) &&
      (forall i, j | 0 <= i < j < 5 :: checks[i].name != checks[j].name) &&
      forall i | 0 <= i < 5 :: checks[i].name in {"model_login", "tools", "handoffkeep_read", "hub_read", "target_pane"}
  }

  predicate CommitReady(h: Hub, r: Request, w: World)
    requires WellFormed(r)
  {
    ClaimsAll(r.readiness) && SeamPasses(w) &&
    KnownMachine(h, w, r.lanes[0].target.value.machine) && KnownMachine(h, w, r.lanes[1].target.value.machine)
  }

  lemma ClaimsMean(c: Option<Claims>)
    ensures ClaimFlags(c) == [true, true, true, true, true] <==> ClaimsAll(c)
  {
    if c.Some? {
      assert ClaimFlags(c)[0] == Claimed(c.value.modelLogin) && ClaimFlags(c)[1] == Claimed(c.value.tools) &&
             ClaimFlags(c)[2] == Claimed(c.value.handoffkeepRead) && ClaimFlags(c)[3] == Claimed(c.value.hubRead) &&
             ClaimFlags(c)[4] == Claimed(c.value.targetPane);
    } else {
      assert !ClaimFlags(c)[0];
    }
  }

  lemma DefaultPasses(r: Request, routes: map<string, Route>, known: set<string>)
    requires ClaimFlags(r.readiness) == [true, true, true, true, true] && TargetsReady(r, routes, known)
    ensures AllPassed(DefaultChecks(r, routes, known))
  {
    var checks := DefaultChecks(r, routes, known);
    assert forall n | 0 <= n < 5 :: checks[n].name == READINESS_NAMES[n];
  }

  /** Five different names out of five are all of them. */
  lemma NamesAll(checks: seq<Check>, names: seq<string>)
    requires |checks| == |names| && (forall i, j | 0 <= i < j < |checks| :: checks[i].name != checks[j].name)
    requires forall i, j | 0 <= i < j < |names| :: names[i] != names[j]
    ensures (forall i | 0 <= i < |checks| :: checks[i].name in names) <==> forall n | 0 <= n < |names| :: Named(checks, names[n])
  {
    var had, want := (set i | 0 <= i < |checks| :: checks[i].name), (set n | 0 <= n < |names| :: names[n]);
    CountNames(checks);
    CountWords(names);
    if forall i | 0 <= i < |checks| :: checks[i].name in names {
      assert had <= want;
      SameSize(had, want);
      forall n | 0 <= n < |names| ensures Named(checks, names[n]) { assert names[n] in had; }
    } else if forall n | 0 <= n < |names| :: Named(checks, names[n]) {
      assert want <= had;
      SameSize(want, had);
      forall i | 0 <= i < |checks| ensures checks[i].name in names { assert checks[i].name in want; }
    }
  }

  lemma SameSize(a: set<string>, b: set<string>)
    requires a <= b && |a| == |b|
    ensures a == b
  {
    assert |b - a| == |b| - |a|;
  }

  lemma {:induction false} CountWords(names: seq<string>)
    requires forall i, j | 0 <= i < j < |names| :: names[i] != names[j]
    ensures |set n | 0 <= n < |names| :: names[n]| == |names|
  {
    if names != [] {
      var init, last := names[..|names| - 1], names[|names| - 1];
      CountWords(init);
      assert (set n | 0 <= n < |names| :: names[n]) == (set n | 0 <= n < |init| :: init[n]) + {last};
    }
  }

  lemma {:induction false} CountNames(checks: seq<Check>)
    requires forall i, j | 0 <= i < j < |checks| :: checks[i].name != checks[j].name
    ensures |set i | 0 <= i < |checks| :: checks[i].name| == |checks|
  {
    if checks != [] {
      var init, last := checks[..|checks| - 1], checks[|checks| - 1];
      CountNames(init);
      assert (set i | 0 <= i < |checks| :: checks[i].name) == (set i | 0 <= i < |init| :: init[i].name) + {last.name};
    }
  }

  lemma SeamMeans(checks: seq<Check>, w: World)
    requires w.checks == Some(checks)
    ensures AllPassed(checks) <==> SeamPasses(w)
  {
    if |checks| == 5 && forall i, j | 0 <= i < j < |checks| :: checks[i].name != checks[j].name {
      NamesAll(checks, READINESS_NAMES);
      NamesSet(checks);
    }
  }

  lemma NamesSet(checks: seq<Check>)
    ensures (forall i | 0 <= i < |checks| :: checks[i].name in READINESS_NAMES) <==>
      forall i | 0 <= i < |checks| :: checks[i].name in {"model_login", "tools", "handoffkeep_read", "hub_read", "target_pane"}
  {
    assert READINESS_NAMES[0] == "model_login" && READINESS_NAMES[1] == "tools" && READINESS_NAMES[2] == "handoffkeep_read" &&
           READINESS_NAMES[3] == "hub_read" && READINESS_NAMES[4] == "target_pane";
  }

  lemma TargetsMean(h: Hub, r: Request, w: World)
    requires WellFormed(r)
    ensures TargetsReady(r, h.file.routes, w.known) <==>
      KnownMachine(h, w, r.lanes[0].target.value.machine) && KnownMachine(h, w, r.lanes[1].target.value.machine)
  {
    forall i | 0 <= i < 2
      ensures TargetReady(r.lanes[i], h.file.routes, w.known) <==> KnownMachine(h, w, r.lanes[i].target.value.machine)
    {
      KnownMeans(h, w, r.lanes[i].target.value.machine);
    }
  }

  lemma KnownMeans(h: Hub, w: World, machine: string)
    ensures Known(machine, h.file.routes, w.known) <==> KnownMachine(h, w, machine)
  {
    var routes := h.file.routes;
    if lane :| lane in routes && !routes[lane].sink && routes[lane].machine == machine { assert OnMachine(routes, lane, machine); }
  }

  /** A commit is cleared exactly when all five claims are made, the seam passes and both target machines are known. */
  lemma ClearedMeans(h: Hub, r: Request, w: World)
    requires WellFormed(r)
    ensures Cleared(r, h.file.routes, w) <==> CommitReady(h, r, w)
  {
    ClaimsMean(r.readiness);
    TargetsMean(h, r, w);
    if w.checks.Some? {
      SeamMeans(w.checks.value, w);
    } else if ClaimFlags(r.readiness) == [true, true, true, true, true] && TargetsReady(r, h.file.routes, w.known) {
      DefaultPasses(r, h.file.routes, w.known);
    }
  }

  // ---------------------------------------------------------------- every refusal

  predicate WholePlace(p: Option<Place>) {
    p.Some? && MachineId(p.value.machine) && p.value.machine != "operator" && ValidPane(p.value.pane)
  }

  /** The request has everything and every name in it is one. */
  predicate Complete(r: Request) {
    r.action in {Prepare, Drain, HandoverReady, Commit, Ack} && ValidRequestId(r.id) &&
    r.expectedEpoch.Some? && r.inflight.Some? && r.docKey.Some? && ValidDocKey(r.docKey.value) &&
    |r.lanes| == 2 && r.lanes[0].lane != r.lanes[1].lane &&
    forall i | 0 <= i < 2 :: ValidLane(r.lanes[i].lane) && WholePlace(r.lanes[i].expected) && WholePlace(r.lanes[i].target)
  }

  predicate OneTarget(r: Request)
    requires Complete(r)
  {
    r.lanes[0].target.value.machine == r.lanes[1].target.value.machine
  }

  /** No kept record has the request's id. */
  predicate Unheard(h: Hub, r: Request) {
    forall i | 0 <= i < |h.file.control.history| :: h.file.control.history[i].id != r.id
  }

  /** Record i is the newest kept one with the request's id. */
  predicate HeardAt(h: Hub, r: Request, i: nat) {
    var history := h.file.control.history;
    i < |history| && history[i].id == r.id && forall j | i < j < |history| :: history[j].id != r.id
  }

  predicate PolicyKnown(h: Hub) { h.policy.configured ==> h.policy.loaded }

  predicate OnBundle(h: Hub, r: Request)
    requires Complete(r)
  {
    h.policy.lanes == {} || (|h.policy.lanes| == 2 && r.lanes[0].lane in h.policy.lanes && r.lanes[1].lane in h.policy.lanes)
  }

  /** The lane's route is the one the request expects. */
  predicate Routed(h: Hub, m: LaneMove) {
    m.expected.Some? && m.lane in h.file.routes &&
    h.file.routes[m.lane] == Route(m.expected.value.machine, m.expected.value.pane, false)
  }

  predicate BothRouted(h: Hub, r: Request)
    requires Complete(r)
  {
    Routed(h, r.lanes[0]) && Routed(h, r.lanes[1])
  }

  /** The action follows the present state, and a handover is made with nothing in flight. */
  predicate InTurn(h: Hub, r: Request)
    requires Complete(r)
  {
    Follows(h.file.control.state, r.action) && (r.action == HandoverReady ==> r.inflight.value == 0)
  }

  /** Where the checks of a transfer stop, in their order. */
  datatype Stop = Malformed | Mixed | Conflicts | Repeats | NoPolicy | OffBundle | Stale | Elsewhere | OutOfTurn | NotReady | Goes

  function StopOf(h: Hub, r: Request, w: World): Stop {
    if !Complete(r) then Malformed
    else if !OneTarget(r) then Mixed
    else if !Unheard(h, r) then
      if exists i: nat | i < |h.file.control.history| :: HeardAt(h, r, i) && h.file.control.history[i].fingerprint == Print(r)
      then Repeats else Conflicts
    else if !PolicyKnown(h) then NoPolicy
    else if !OnBundle(h, r) then OffBundle
    else if r.expectedEpoch.value != h.file.control.epoch then Stale
    else if !BothRouted(h, r) then Elsewhere
    else if !InTurn(h, r) then OutOfTurn
    else if r.action == Commit && !CommitReady(h, r, w) then NotReady
    else Goes
  }

  /** The code of every refusal. */
  function CodeOf(s: Stop): Option<Refusal> {
    match s
    case Malformed => Some(InvalidRequest)
    case Mixed => Some(MixedTargetMachine)
    case Conflicts => Some(RequestIdConflict)
    case NoPolicy => Some(PolicyUnavailable)
    case OffBundle => Some(BundleMismatch)
    case Stale => Some(StaleEpoch)
    case Elsewhere => Some(RouteMismatch)
    case OutOfTurn => Some(IllegalTransition)
    case NotReady => Some(TargetNotReady)
    case Repeats => None
    case Goes => None
  }

  lemma CompleteMeans(r: Request)
    ensures Complete(r) <==> WellFormed(r)
    ensures WellFormed(r) ==> (OneTarget(r) <==> ValidRequest(r))
  {
    if |r.lanes| == 2 {
      forall i | 0 <= i < 2
        ensures ValidMove(r.lanes[i]) <==>
          ValidLane(r.lanes[i].lane) && WholePlace(r.lanes[i].expected) && WholePlace(r.lanes[i].target)
      {
      }
    }
  }

  lemma HeardMeans(h: Hub, r: Request)
    ensures Unheard(h, r) <==> Find(h.file.control.history, r.id).None?
    ensures forall i: nat | HeardAt(h, r, i) :: Find(h.file.control.history, r.id) == Some(h.file.control.history[i])
    ensures !Unheard(h, r) ==> exists i: nat :: HeardAt(h, r, i)
  {
    var history := h.file.control.history;
    FindNone(history, r.id);
    forall i: nat | HeardAt(h, r, i) ensures Find(history, r.id) == Some(history[i]) { FindNewest(history, r.id, i); }
    if !Unheard(h, r) { var i := NewestHeard(h, r, |history|); }
  }

  lemma {:induction false} NewestHeard(h: Hub, r: Request, n: nat) returns (i: nat)
    requires n <= |h.file.control.history| && exists j | 0 <= j < n :: h.file.control.history[j].id == r.id
    requires forall j | n <= j < |h.file.control.history| :: h.file.control.history[j].id != r.id
    ensures HeardAt(h, r, i)
  {
    if h.file.control.history[n - 1].id == r.id { i := n - 1; } else { i := NewestHeard(h, r, n - 1); }
  }

  lemma BundleMeans(h: Hub, r: Request)
    requires Complete(r)
    ensures BundleRefusal(h.policy, r.lanes) ==
      (if !PolicyKnown(h) then Some(PolicyUnavailable) else if !OnBundle(h, r) then Some(BundleMismatch) else None)
  {
    assert r.lanes[0].lane in h.policy.lanes && r.lanes[1].lane in h.policy.lanes <==>
           forall i | 0 <= i < |r.lanes| :: r.lanes[i].lane in h.policy.lanes;
  }

  lemma RoutedMeans(h: Hub, m: LaneMove)
    ensures Routed(h, m) <==> OnExpected(m, h.file.routes)
  {
  }

  /** The decisions after the replay, for a request that is new. */
  lemma NewDecides(h: Hub, r: Request, w: World)
    requires Complete(r) && OneTarget(r) && Unheard(h, r)
    ensures var d, stop := Decide(h.file, h.policy, r, w), StopOf(h, r, w);
      !d.Replay? && (d.Change? <==> stop == Goes) && (d.Refuse? ==> CodeOf(stop) == Some(d.reason))
  {
    CompleteMeans(r);
    HeardMeans(h, r);
    BundleMeans(h, r);
    RoutedMeans(h, r.lanes[0]);
    RoutedMeans(h, r.lanes[1]);
    NextMeans(h.file.control.state, r.action);
    ClearedMeans(h, r, w);
  }

  lemma HeardDecides(h: Hub, r: Request, w: World)
    requires Complete(r) && OneTarget(r) && !Unheard(h, r)
    ensures var d, stop := Decide(h.file, h.policy, r, w), StopOf(h, r, w);
      !d.Change? && (d.Replay? <==> stop == Repeats) && (d.Refuse? ==> CodeOf(stop) == Some(d.reason))
  {
    CompleteMeans(r);
    HeardMeans(h, r);
    var i: nat :| HeardAt(h, r, i);
  }

  lemma Decides(h: Hub, r: Request, w: World)
    ensures var d, stop := Decide(h.file, h.policy, r, w), StopOf(h, r, w);
      (d.Change? <==> stop == Goes) && (d.Replay? <==> stop == Repeats) && (d.Refuse? ==> CodeOf(stop) == Some(d.reason))
  {
    CompleteMeans(r);
    if Complete(r) && OneTarget(r) {
      if Unheard(h, r) { NewDecides(h, r, w); } else { HeardDecides(h, r, w); }
    }
  }

  /**
   * Every answer has its reason: a refusal carries the code of the first check that fails, a
   * transfer that passes them all is applied and answered unless its write failed, and one
   * that repeats its newest kept record is answered.
   */
  lemma AnswersExactly(h: Hub, r: Request, w: World, code: Refusal)
    ensures var o, stop := OutcomeOf(h, r, w), StopOf(h, r, w);
      (o == Denied(code) <==> CodeOf(stop) == Some(code) || (code == WriteFailed && stop == Goes && w.write != Written)) &&
      (o.Answered? <==> stop == Repeats || (stop == Goes && w.write == Written)) &&
      (Applies(h, Transfer(r, w)) <==> stop == Goes && w.write != NotWritten)
  {
    Decides(h, r, w);
  }

  /** What a repeat is told is the newest kept record with its id, field by field. */
  lemma RepeatTold(h: Hub, r: Request, w: World, i: nat)
    requires StopOf(h, r, w) == Repeats && HeardAt(h, r, i)
    ensures var kept := h.file.control.history[i];
      OutcomeOf(h, r, w) == Answered(Response(kept.id, kept.epoch, kept.owner, kept.state, kept.docKey, kept.routes, kept.readiness))
  {
    Decides(h, r, w);
    CompleteMeans(r);
    HeardMeans(h, r);
  }
}
