/**
 * What the assistant may say about a lane: an answer of done or delivered has to be
 * proved from bounded reads of handoffkeep, each of which may see a later remote state.
 */
module Progress {
  import opened Names
  import opened PagedScan
  import opened Options

  const RELAY_PAGES: nat := 8
  const RELAY_PAGE: nat := 500
  const TASK_PAGES: nat := 5
  const TASK_PAGE: nat := 1000
  const OUTBOX_LIMIT: nat := 1000
  const CHAT_CAP: nat := 1000
  const MAX_ATTEMPTS: int := 3

  datatype RelayEvent = RelayEvent(lane: string, eventId: string, deliveredAt: string, attempts: int, deliveredTo: string)

  datatype Task = Task(lane: string, state: string)

  datatype OutboxRow = OutboxRow(eventId: string, targetLane: string)

  /** An open decision request with the state of its task, and a pending chat question. */
  datatype Request = Request(id: string, lane: string, taskState: string)
  datatype Question = Question(id: string, revision: nat, lane: string, answered: bool)

  datatype Remote = Remote(requests: seq<Request>, questions: seq<Question>, relay: seq<Row<RelayEvent>>,
                           outbox: seq<OutboxRow>, tasks: seq<Row<Task>>)

  /**
   * The states the reads of one answer see, in the order they are made: the pending view, the
   * undelivered rows, the outbox and the two walks per answered question, then the outbox again,
   * the lane's tasks and its whole history.
   */
  datatype Views = Views(pending: Remote, relay: Remote, unsent: Remote, live: string -> Remote, any: string -> Remote,
                         outbox: Remote, tasks: Remote, history: Remote)

  /** All reads see one state. */
  function At(r: Remote): Views { Views(r, r, r, (id: string) => r, (id: string) => r, r, r, r) }

  datatype State = DecisionPending | Failed | Accepted | InProgress | Delivered | Done

  datatype RowClass = Live | Exhausted | Sink | Stamped | Landed

  // ---------------------------------------------------------------- relay rows

  /** The part before the first slash, if there is one. */
  function Cut(s: string): Option<nat> {
    if s == [] then None
    else if s[0] == '/' then Some(0)
    else match Cut(s[1..]) case None => None case Some(k) => Some(k + 1)
  }

  lemma {:induction false} CutAt(s: string)
    ensures match Cut(s) { case None => '/' !in s case Some(k) => k < |s| && s[k] == '/' && '/' !in s[..k] }
  {
    if s != [] && s[0] != '/' {
      CutAt(s[1..]);
      assert s == [s[0]] + s[1..];
    }
  }

  /** A stamp that names a real machine and pane. */
  predicate DeliveredToTarget(to: string) {
    match Cut(to)
    case None => false
    case Some(k) =>
      k < |to| &&
      var machine, pane := to[..k], to[k + 1..];
      machine != "hub" && machine != "sink" && machine != "resolve" && MachineId(machine) &&
      pane != "" && |pane| <= 128 && pane != "cancelled"
  }

  function Classify(row: RelayEvent): RowClass {
    if row.deliveredAt == "" then if row.attempts >= MAX_ATTEMPTS then Exhausted else Live
    else if DeliveredToTarget(row.deliveredTo) then Landed
    else if "sink/" <= row.deliveredTo then Sink
    else Stamped
  }

  /** A machine id that stands for no pseudo-machine. */
  predicate RealMachine(m: string) {
    m != "hub" && m != "sink" && m != "resolve" && 1 <= |m| <= 63 && ('a' <= m[0] <= 'z' || '0' <= m[0] <= '9') &&
    forall i | 0 <= i < |m| :: 'a' <= m[i] <= 'z' || '0' <= m[i] <= '9' || m[i] == '.' || m[i] == '_' || m[i] == '-'
  }

  predicate PaneStamp(to: string, m: string, p: string) {
    to == m + "/" + p && '/' !in m && RealMachine(m) && 1 <= |p| <= 128 && p != "cancelled"
  }

  /** The stamp is a real machine, a slash and a pane. */
  ghost predicate ToPane(to: string) { exists m, p :: PaneStamp(to, m, p) }

  lemma CutJoined(m: string, p: string)
    requires '/' !in m
    ensures Cut(m + "/" + p) == Some(|m|)
  {
    var to := m + "/" + p;
    CutAt(to);
    assert to[|m|] == '/' && forall i | 0 <= i < |m| :: to[i] == m[i];
    assert forall k | |m| < k <= |to| :: to[..k][|m|] == '/';
  }

  lemma StampMeans(to: string)
    ensures DeliveredToTarget(to) <==> ToPane(to)
  {
    CutAt(to);
    if DeliveredToTarget(to) {
      var k := Cut(to).value;
      assert to == to[..k] + "/" + to[k + 1..];
      assert PaneStamp(to, to[..k], to[k + 1..]);
    }
    forall m, p | PaneStamp(to, m, p) ensures DeliveredToTarget(to) {
      CutJoined(m, p);
      assert to[..|m|] == m && to[|m| + 1..] == p;
    }
  }

  /** A delivered row landed, went to the sink or was only stamped; an undelivered one is given up from three attempts on. */
  lemma ClassMeans(e: RelayEvent)
    ensures Classify(e) == Landed <==> e.deliveredAt != "" && ToPane(e.deliveredTo)
    ensures Classify(e) == Sink <==> e.deliveredAt != "" && !ToPane(e.deliveredTo) && "sink/" <= e.deliveredTo
    ensures Classify(e) == Stamped <==> e.deliveredAt != "" && !ToPane(e.deliveredTo) && !("sink/" <= e.deliveredTo)
    ensures Classify(e) == Exhausted <==> e.deliveredAt == "" && e.attempts >= 3
    ensures Classify(e) == Live <==> e.deliveredAt == "" && e.attempts < 3
  {
    StampMeans(e.deliveredTo);
  }

  /** The row reached a real pane. */
  ghost predicate Arrived(e: RelayEvent) { e.deliveredAt != "" && ToPane(e.deliveredTo) }

  /** The row will not reach one: it has another stamp, or three attempts behind it. */
  ghost predicate Ended(e: RelayEvent) { if e.deliveredAt != "" then !ToPane(e.deliveredTo) else e.attempts >= 3 }

  function RowState(row: RelayEvent): State {
    match Classify(row)
    case Landed => Done
    case Live => InProgress
    case _ => Failed
  }

  function Keep(lane: string, undelivered: bool): RelayEvent -> bool {
    (e: RelayEvent) => e.lane == lane && (undelivered ==> e.deliveredAt == "")
  }

  function OnLane(r: Remote, lane: string, undelivered: bool): seq<Row<RelayEvent>> {
    Filter(r.relay, Keep(lane, undelivered))
  }

  function KeepTask(lane: string): Task -> bool { (t: Task) => t.lane == lane }

  function Tasks(r: Remote, lane: string): seq<Row<Task>> { Filter(r.tasks, KeepTask(lane)) }

  predicate Terminal(state: string) { state == "merged" || state == "dropped" }

  // ---------------------------------------------------------------- the notice chain of one answered question

  predicate Digit(c: char) { '0' <= c <= '9' }

  function Number(s: string): nat
    requires forall i | 0 <= i < |s| :: Digit(s[i])
  {
    if s == [] then 0
    else
      assert Digit(s[|s| - 1]);
      10 * Number(s[..|s| - 1]) + (s[|s| - 1] as int - '0' as int)
  }

  /** strconv.Atoi succeeds with a positive number. */
  predicate PositiveNumber(s: string) {
    var digits := if s != [] && s[0] == '+' then s[1..] else s;
    digits != [] && (forall i | 0 <= i < |digits| :: Digit(digits[i])) && 0 < Number(digits) < 0x8000_0000_0000_0000
  }

  /** The event ids an answer to this question can travel under: any revision of it. */
  predicate IsNotice(id: string, eventId: string) {
    var prefix, suffix := id + "-rev", "-answered";
    prefix <= eventId && |eventId| >= |prefix| + |suffix| && eventId[|eventId| - |suffix|..] == suffix &&
    PositiveNumber(eventId[|prefix|..|eventId| - |suffix|])
  }

  function NoticeOf(id: string): string -> bool { (eventId: string) => IsNotice(id, eventId) }

  /** The last row whose event id is one of these. */
  function Newest(rows: seq<Row<RelayEvent>>, ids: string -> bool): Option<RelayEvent> {
    if rows == [] then None
    else if ids(rows[|rows| - 1].body.eventId) then Some(rows[|rows| - 1].body)
    else Newest(rows[..|rows| - 1], ids)
  }

  function NewestNotice(rows: seq<Row<RelayEvent>>, id: string): Option<RelayEvent> { Newest(rows, NoticeOf(id)) }

  predicate Owes(rows: seq<OutboxRow>, lane: string, id: string) {
    exists i | 0 <= i < |rows| :: IsNotice(id, rows[i].eventId) && (lane != "" ==> rows[i].targetLane == lane)
  }

  /** noticeVerdict. */
  function Notice(v: Views, lane: string, id: string): State {
    if Owes(Take(v.unsent.outbox, OUTBOX_LIMIT), lane, id) then Accepted
    else if lane == "" then InProgress
    else
      var live := NewestNotice(Undelivered(v.live(id), lane), id);
      if live.Some? then RowState(live.value)
      else
        var any := NewestNotice(AllRows(v.any(id), lane), id);
        if any.Some? then RowState(any.value) else InProgress
  }

  // ---------------------------------------------------------------- folding several chains

  datatype Verdict = Verdict(key: string, state: State, reason: string)

  function Rank(s: State): nat {
    match s
    case Failed => 0
    case Accepted => 1
    case InProgress => 2
    case Delivered => 3
    case Done => 4
    case DecisionPending => 5
  }

  /** a is reported rather than b: less advanced, or as advanced with the smaller key. */
  predicate Precedes(a: Verdict, b: Verdict) {
    Rank(a.state) < Rank(b.state) || (Rank(a.state) == Rank(b.state) && (a.key == b.key || Before(a.key, b.key)))
  }

  predicate ValidVerdicts(vs: seq<Verdict>) {
    forall i | 0 <= i < |vs| :: vs[i].key != "" && vs[i].state != DecisionPending
  }

  predicate DistinctVerdicts(vs: seq<Verdict>) {
    forall i, j | 0 <= i < j < |vs| :: vs[i].key != vs[j].key
  }

  predicate Least(vs: seq<Verdict>, k: nat) {
    k < |vs| && forall i | 0 <= i < |vs| :: Precedes(vs[k], vs[i])
  }

  lemma PrecedesTransitive(a: Verdict, b: Verdict, c: Verdict)
    requires Precedes(a, b) && Precedes(b, c)
    ensures Precedes(a, c)
  {
    if Before(a.key, b.key) && Before(b.key, c.key) { BeforeTransitive(a.key, b.key, c.key); }
  }

  /** foldAnsweredChains over the verdicts of the items. */
  method Fold(vs: seq<Verdict>) returns (state: State, reason: string, ghost k: nat)
    requires ValidVerdicts(vs)
    ensures vs == [] ==> state == Done && reason == ""
    ensures vs != [] ==> Least(vs, k) && state == vs[k].state && reason == vs[k].reason
  {
    state, reason, k := Done, "", 0;
    var winKey := "";
    for i := 0 to |vs|
      invariant i == 0 ==> state == Done && winKey == "" && reason == ""
      invariant i > 0 ==> k < i && vs[k] == Verdict(winKey, state, reason) && forall j | 0 <= j < i :: Precedes(vs[k], vs[j])
    {
      var v := vs[i];
      if Rank(v.state) < Rank(state) || (Rank(v.state) == Rank(state) && (winKey == "" || Before(v.key, winKey))) {
        forall j | 0 <= j < i ensures Precedes(v, vs[j]) { PrecedesTransitive(v, vs[k], vs[j]); }
        state, winKey, reason, k := v.state, v.key, v.reason, i;
      } else {
        if v.key != winKey { BeforeTotal(v.key, winKey); }
      }
    }
  }

  /** The winner does not depend on the order of the items. */
  lemma FoldOrderFree(vs: seq<Verdict>, i: nat, ws: seq<Verdict>, j: nat)
    requires DistinctVerdicts(vs) && DistinctVerdicts(ws) && Least(vs, i) && Least(ws, j)
    requires forall v :: v in vs <==> v in ws
    ensures vs[i] == ws[j]
  {
    assert vs[i] in ws && ws[j] in vs;
    var a, b := vs[i], ws[j];
    assert Precedes(a, b) && Precedes(b, a);
    if a.key != b.key { BeforeTotal(a.key, b.key); }
    var m :| 0 <= m < |ws| && ws[m] == a;
    assert m == j;
  }

  // ---------------------------------------------------------------- the verdict on a lane

  predicate OpenRequest(r: Remote, lane: string) {
    exists i | 0 <= i < |r.requests| :: r.requests[i].lane == lane && !Terminal(r.requests[i].taskState)
  }

  predicate Unanswered(qs: seq<Question>, lane: string) {
    exists i | 0 <= i < |qs| :: qs[i].lane == lane && !qs[i].answered
  }

  /** Where the chain of each question stands. */
  function Chains(v: Views, lane: string): string -> State { (id: string) => Notice(v, lane, id) }

  predicate ChainDone(chains: string -> State, q: Question, lane: string) {
    q.lane == lane && q.answered ==> chains(q.id) == Done
  }

  predicate ChainsDone(chains: string -> State, qs: seq<Question>, lane: string) {
    forall i | 0 <= i < |qs| :: ChainDone(chains, qs[i], lane)
  }

  predicate OwesLane(rows: seq<OutboxRow>, lane: string) {
    exists i | 0 <= i < |rows| :: rows[i].targetLane == lane
  }

  predicate LiveTask(rows: seq<Row<Task>>) {
    exists i | 0 <= i < |rows| :: !Terminal(rows[i].body.state)
  }

  /** The undelivered rows of the lane that a bounded walk reads. */
  function Undelivered(r: Remote, lane: string): seq<Row<RelayEvent>> {
    Take(OnLane(r, lane, true), RELAY_PAGES * RELAY_PAGE)
  }

  /** The rows of the lane such a walk reads, delivered or not. */
  function AllRows(r: Remote, lane: string): seq<Row<RelayEvent>> {
    Take(OnLane(r, lane, false), RELAY_PAGES * RELAY_PAGE)
  }

  /** An undelivered row has had its three attempts. */
  predicate GaveUp(r: Remote, lane: string) {
    HasRow(Undelivered(r, lane), true)
  }

  /** Some row has had three attempts, or some row has not. */
  predicate HasRow(rows: seq<Row<RelayEvent>>, spent: bool) {
    exists i | 0 <= i < |rows| :: (rows[i].body.attempts >= 3) == spent
  }

  lemma HasRowPush(rows: seq<Row<RelayEvent>>, row: Row<RelayEvent>, spent: bool)
    ensures HasRow(rows + [row], spent) <==> HasRow(rows, spent) || (row.body.attempts >= 3) == spent
  {
    assert (rows + [row])[|rows|] == row;
    assert forall k | 0 <= k < |rows| :: (rows + [row])[k] == rows[k];
  }

  predicate NothingPending(r: Remote, lane: string) {
    !OpenRequest(r, lane) && !Unanswered(r.questions, lane) && |r.questions| < 1000
  }

  /** The notice chain of some answered question stands here. */
  predicate ChainAt(chains: string -> State, qs: seq<Question>, lane: string, s: State) {
    exists i | 0 <= i < |qs| :: StandsAt(chains, qs[i], lane, s)
  }

  predicate StandsAt(chains: string -> State, q: Question, lane: string, s: State) {
    q.lane == lane && q.answered && chains(q.id) == s
  }

  /** Nothing pending, owed, undelivered or live on the lane when each was read, in states small enough to be read whole. */
  predicate Quiet(v: Views, lane: string) {
    NothingPending(v.pending, lane) && OnLane(v.relay, lane, true) == [] &&
    ChainsDone(Chains(v, lane), v.pending.questions, lane) &&
    !OwesLane(v.outbox.outbox, lane) && |v.outbox.outbox| < 1000 &&
    !LiveTask(Tasks(v.tasks, lane)) && |Tasks(v.tasks, lane)| < 5000 &&
    |OnLane(v.history, lane, false)| < 4000
  }

  /** The lane is quiet in one state. */
  predicate Settled(r: Remote, lane: string) { Quiet(At(r), lane) }

  /** The newest row of the lane. */
  function LastRow(r: Remote, lane: string): RelayEvent
    requires OnLane(r, lane, false) != []
  {
    OnLane(r, lane, false)[|OnLane(r, lane, false)| - 1].body
  }

  /** The lane has rows, and its newest one reached a real pane. */
  ghost predicate LastArrived(r: Remote, lane: string) { OnLane(r, lane, false) != [] && Arrived(LastRow(r, lane)) }

  /** The lane has rows, and its newest one never will. */
  ghost predicate LastEnded(r: Remote, lane: string) { OnLane(r, lane, false) != [] && Ended(LastRow(r, lane)) }

  function Decimal(n: nat): string {
    if n < 10 then ['0' + n as char] else Decimal(n / 10) + ['0' + (n % 10) as char]
  }

  function ItemKey(q: Question): string { q.id + ":" + Decimal(q.revision) }

  predicate DistinctKeys(qs: seq<Question>) {
    forall i, j | 0 <= i < j < |qs| :: ItemKey(qs[i]) != ItemKey(qs[j])
  }

  predicate Ready(r: Remote) {
    Sorted(r.relay) && Sorted(r.tasks)
  }

  predicate ViewsReady(v: Views) { Ready(v.relay) && Ready(v.tasks) && Ready(v.history) }

  // ---------------------------------------------------------------- progressLane, part by part

  method PendingPart(r: Remote, lane: string) returns (s: Option<State>)
    ensures s.None? <==> !OpenRequest(r, lane) && !Unanswered(r.questions, lane) && |r.questions| < CHAT_CAP
    ensures s.Some? ==> s.value == DecisionPending || s.value == InProgress
    ensures s == Some(DecisionPending) <==> OpenRequest(r, lane) || Unanswered(Take(r.questions, CHAT_CAP), lane)
  {
    for i := 0 to |r.requests|
      invariant forall j | 0 <= j < i :: !(r.requests[j].lane == lane && !Terminal(r.requests[j].taskState))
    {
      if r.requests[i].lane == lane && !Terminal(r.requests[i].taskState) { return Some(DecisionPending); }
    }
    var view := Take(r.questions, CHAT_CAP);
    for i := 0 to |view|
      invariant forall j | 0 <= j < i :: !(view[j].lane == lane && !view[j].answered)
    {
      if view[i].lane == lane && !view[i].answered {
        assert r.questions[i] == view[i];
        return Some(DecisionPending);
      }
    }
    if |view| >= CHAT_CAP { return Some(InProgress); }
    return None;
  }

  /** Undelivered rows: a row out of attempts fails the lane, any other is still live. */
  method RelayPart(r: Remote, lane: string) returns (failed: bool, live: bool, truncated: bool)
    requires Sorted(r.relay)
    ensures failed <==> GaveUp(r, lane)
    ensures live <==> HasRow(Undelivered(r, lane), false)
    ensures !failed && !live <==> OnLane(r, lane, true) == []
    ensures OnLane(r, lane, true) == [] ==> !truncated
  {
    var rows;
    rows, truncated := Scan(r.relay, Keep(lane, true), RELAY_PAGES, RELAY_PAGE);
    failed, live := SortOut(rows);
  }

  method SortOut(rows: seq<Row<RelayEvent>>) returns (failed: bool, live: bool)
    requires forall i | 0 <= i < |rows| :: rows[i].body.deliveredAt == ""
    ensures failed <==> HasRow(rows, true)
    ensures live <==> HasRow(rows, false)
    ensures !failed && !live <==> rows == []
  {
    failed, live := false, false;
    for i := 0 to |rows|
      invariant failed <==> HasRow(rows[..i], true)
      invariant live <==> HasRow(rows[..i], false)
      invariant !failed && !live <==> i == 0
    {
      assert rows[..i + 1] == rows[..i] + [rows[i]];
      HasRowPush(rows[..i], rows[i], true);
      HasRowPush(rows[..i], rows[i], false);
      if Classify(rows[i].body) == Exhausted { failed := true; } else { live := true; }
    }
    assert rows[..|rows|] == rows;
  }

  /** One verdict for every answered question of the lane. */
  function Verdicts(chains: string -> State, lane: string, qs: seq<Question>): seq<Verdict> {
    if qs == [] then [] else Verdicts(chains, lane, qs[..|qs| - 1]) + OneVerdict(chains, lane, qs[|qs| - 1])
  }

  function OneVerdict(chains: string -> State, lane: string, q: Question): seq<Verdict> {
    if q.lane == lane && q.answered then [Verdict(ItemKey(q), chains(q.id), "")] else []
  }

  lemma {:induction false} VerdictKey(chains: string -> State, lane: string, qs: seq<Question>, k: nat) returns (j: nat)
    requires k < |Verdicts(chains, lane, qs)|
    ensures j < |qs| && Verdicts(chains, lane, qs)[k].key == ItemKey(qs[j])
    ensures Verdicts(chains, lane, qs)[k].state == chains(qs[j].id)
  {
    var init := qs[..|qs| - 1];
    if k < |Verdicts(chains, lane, init)| { j := VerdictKey(chains, lane, init, k); } else { j := |qs| - 1; }
  }

  predicate Pending(s: State) { s == Delivered || s == DecisionPending }

  lemma VerdictsValid(chains: string -> State, lane: string, qs: seq<Question>)
    requires forall id: string :: !Pending(chains(id))
    ensures ValidVerdicts(Verdicts(chains, lane, qs))
  {
    forall k: nat | k < |Verdicts(chains, lane, qs)|
      ensures Verdicts(chains, lane, qs)[k].key != "" && Verdicts(chains, lane, qs)[k].state != DecisionPending
    {
      var j := VerdictKey(chains, lane, qs, k);
      assert !Pending(chains(qs[j].id));
    }
  }

  /** Different items give different verdicts, so the report does not depend on the order of the questions. */
  lemma {:induction false} VerdictsDistinct(chains: string -> State, lane: string, qs: seq<Question>)
    requires DistinctKeys(qs)
    ensures DistinctVerdicts(Verdicts(chains, lane, qs))
  {
    if qs != [] {
      var init := qs[..|qs| - 1];
      VerdictsDistinct(chains, lane, init);
      forall k | 0 <= k < |Verdicts(chains, lane, init)|
        ensures Verdicts(chains, lane, init)[k].key != ItemKey(qs[|qs| - 1])
      {
        var j := VerdictKey(chains, lane, init, k);
      }
    }
  }

  predicate AllDone(vs: seq<Verdict>) { forall k | 0 <= k < |vs| :: vs[k].state == Done }

  lemma AllDoneJoined(vs: seq<Verdict>, ws: seq<Verdict>)
    ensures AllDone(vs + ws) <==> AllDone(vs) && AllDone(ws)
  {
    assert forall k | 0 <= k < |vs| :: (vs + ws)[k] == vs[k];
    assert forall k | 0 <= k < |ws| :: (vs + ws)[|vs| + k] == ws[k];
  }

  lemma ChainsPush(chains: string -> State, qs: seq<Question>, q: Question, lane: string)
    ensures ChainsDone(chains, qs + [q], lane) <==> ChainsDone(chains, qs, lane) && ChainDone(chains, q, lane)
  {
    assert (qs + [q])[|qs|] == q;
    assert forall k | 0 <= k < |qs| :: (qs + [q])[k] == qs[k];
  }

  lemma OneDone(chains: string -> State, lane: string, q: Question)
    ensures AllDone(OneVerdict(chains, lane, q)) <==> ChainDone(chains, q, lane)
  {
    if q.lane == lane && q.answered { assert OneVerdict(chains, lane, q)[0].state == chains(q.id); }
  }

  lemma {:induction false} VerdictsDone(chains: string -> State, lane: string, qs: seq<Question>)
    ensures ChainsDone(chains, qs, lane) <==> AllDone(Verdicts(chains, lane, qs))
  {
    if qs != [] {
      var init, q := qs[..|qs| - 1], qs[|qs| - 1];
      VerdictsDone(chains, lane, init);
      assert qs == init + [q];
      ChainsPush(chains, init, q, lane);
      OneDone(chains, lane, q);
      AllDoneJoined(Verdicts(chains, lane, init), OneVerdict(chains, lane, q));
    }
  }

  /** The chains of the answered questions, folded. */
  method ChainsPart(v: Views, lane: string) returns (state: State)
    ensures var qs := v.pending.questions;
      (state == Done <==> ChainsDone(Chains(v, lane), qs, lane)) &&
      (state == Failed <==> ChainAt(Chains(v, lane), qs, lane, Failed)) &&
      (state == Accepted <==> !ChainAt(Chains(v, lane), qs, lane, Failed) && ChainAt(Chains(v, lane), qs, lane, Accepted))
    ensures !Pending(state)
  {
    ChainStates(v, lane);
    state := FoldChains(Chains(v, lane), lane, v.pending.questions);
  }

  /** No chain is answered with delivered or with a decision to make. */
  lemma ChainStates(v: Views, lane: string)
    ensures forall id: string :: !Pending(Chains(v, lane)(id))
  {
  }

  method FoldChains(chains: string -> State, lane: string, qs: seq<Question>) returns (state: State)
    requires forall id: string :: !Pending(chains(id))
    ensures state == Done <==> ChainsDone(chains, qs, lane)
    ensures state == Failed <==> ChainAt(chains, qs, lane, Failed)
    ensures state == Accepted <==> !ChainAt(chains, qs, lane, Failed) && ChainAt(chains, qs, lane, Accepted)
    ensures !Pending(state)
  {
    var vs := Collected(chains, lane, qs);
    VerdictsDone(chains, lane, qs);
    VerdictsValid(chains, lane, qs);
    VerdictsAt(chains, lane, qs, Failed);
    VerdictsAt(chains, lane, qs, Accepted);
    state := Folded(vs);
    if state != Done {
      ghost var k: nat :| k < |vs| && vs[k].state == state;
      ghost var j := VerdictKey(chains, lane, qs, k);
    }
  }

  method Collected(chains: string -> State, lane: string, qs: seq<Question>) returns (vs: seq<Verdict>)
    ensures vs == Verdicts(chains, lane, qs)
  {
    vs := [];
    for i := 0 to |qs|
      invariant vs == Verdicts(chains, lane, qs[..i])
    {
      assert qs[..i + 1][..i] == qs[..i];
      if qs[i].lane == lane && qs[i].answered { vs := vs + [Verdict(ItemKey(qs[i]), chains(qs[i].id), "")]; }
    }
    assert qs[..|qs|] == qs;
  }

  predicate SomeAt(vs: seq<Verdict>, s: State) { exists k | 0 <= k < |vs| :: vs[k].state == s }

  /** A verdict stands there exactly when the chain of some answered question does. */
  lemma {:induction false} VerdictsAt(chains: string -> State, lane: string, qs: seq<Question>, s: State)
    ensures SomeAt(Verdicts(chains, lane, qs), s) <==> ChainAt(chains, qs, lane, s)
  {
    if qs != [] {
      var init, q := qs[..|qs| - 1], qs[|qs| - 1];
      VerdictsAt(chains, lane, init, s);
      ChainAtPush(chains, init, q, lane, s);
      assert qs == init + [q];
      SomeAtJoined(Verdicts(chains, lane, init), OneVerdict(chains, lane, q), s);
      OneAt(chains, lane, q, s);
    }
  }

  lemma SomeAtJoined(vs: seq<Verdict>, ws: seq<Verdict>, s: State)
    ensures SomeAt(vs + ws, s) <==> SomeAt(vs, s) || SomeAt(ws, s)
  {
    assert forall k | 0 <= k < |vs| :: (vs + ws)[k] == vs[k];
    assert forall k | 0 <= k < |ws| :: (vs + ws)[|vs| + k] == ws[k];
  }

  lemma OneAt(chains: string -> State, lane: string, q: Question, s: State)
    ensures SomeAt(OneVerdict(chains, lane, q), s) <==> StandsAt(chains, q, lane, s)
  {
    if q.lane == lane && q.answered { assert OneVerdict(chains, lane, q)[0].state == chains(q.id); }
  }

  lemma ChainAtPush(chains: string -> State, qs: seq<Question>, q: Question, lane: string, s: State)
    ensures ChainAt(chains, qs + [q], lane, s) <==> ChainAt(chains, qs, lane, s) || StandsAt(chains, q, lane, s)
  {
    assert (qs + [q])[|qs|] == q;
    assert forall k | 0 <= k < |qs| :: (qs + [q])[k] == qs[k];
  }

  method Folded(vs: seq<Verdict>) returns (state: State)
    requires ValidVerdicts(vs)
    ensures (state == Done <==> AllDone(vs)) && (state == Done || exists k | 0 <= k < |vs| :: vs[k].state == state)
    ensures state == Failed <==> SomeAt(vs, Failed)
    ensures state == Accepted <==> !SomeAt(vs, Failed) && SomeAt(vs, Accepted)
  {
    ghost var k: nat;
    var reason;
    state, reason, k := Fold(vs);
    DoneLast(vs, k);
    LeastFirst(vs, k);
  }

  /** A failed chain is reported before an accepted one, and that before any other. */
  lemma LeastFirst(vs: seq<Verdict>, k: nat)
    requires vs != [] ==> Least(vs, k)
    ensures vs != [] ==> (vs[k].state == Failed <==> SomeAt(vs, Failed))
    ensures vs != [] ==> (vs[k].state == Accepted <==> !SomeAt(vs, Failed) && SomeAt(vs, Accepted))
  {
    if vs != [] {
      forall i | 0 <= i < |vs| ensures Rank(vs[k].state) <= Rank(vs[i].state) { assert Precedes(vs[k], vs[i]); }
    }
  }

  /** The fold reports done only when every chain is done. */
  lemma DoneLast(vs: seq<Verdict>, k: nat)
    requires ValidVerdicts(vs) && (vs != [] ==> Least(vs, k))
    ensures vs != [] ==> (vs[k].state == Done <==> AllDone(vs))
  {
    if vs != [] && vs[k].state == Done {
      forall i | 0 <= i < |vs| ensures vs[i].state == Done {
        assert Precedes(vs[k], vs[i]);
      }
    }
  }

  method OutboxPart(r: Remote, lane: string) returns (owed: bool, truncated: bool)
    ensures !owed && !truncated <==> !OwesLane(r.outbox, lane) && |r.outbox| < OUTBOX_LIMIT
  {
    var rows := Take(r.outbox, OUTBOX_LIMIT);
    owed := false;
    for i := 0 to |rows|
      invariant owed <==> exists j | 0 <= j < i :: rows[j].targetLane == lane
    {
      if rows[i].targetLane == lane { owed := true; }
    }
    truncated := |rows| >= OUTBOX_LIMIT;
    if owed && !truncated { assert OwesLane(r.outbox, lane); }
  }

  method TasksPart(r: Remote, lane: string) returns (quiet: bool)
    requires Sorted(r.tasks)
    ensures quiet <==> |Tasks(r, lane)| < TASK_PAGES * TASK_PAGE && !LiveTask(Tasks(r, lane))
  {
    var rows, truncated := Scan(r.tasks, KeepTask(lane), TASK_PAGES, TASK_PAGE);
    if truncated { return false; }
    for i := 0 to |rows|
      invariant forall j | 0 <= j < i :: Terminal(rows[j].body.state)
    {
      if !Terminal(rows[i].body.state) { return false; }
    }
    return true;
  }

  /** The newest row of the whole lane decides between delivered and failed. */
  method HistoryPart(r: Remote, lane: string) returns (s: State)
    requires Sorted(r.relay)
    ensures s == Done <==> OnLane(r, lane, false) == []
    ensures s == Delivered <==> |OnLane(r, lane, false)| < RELAY_PAGES * RELAY_PAGE && LastArrived(r, lane)
    ensures s == Failed <==> |OnLane(r, lane, false)| < RELAY_PAGES * RELAY_PAGE && LastEnded(r, lane)
    ensures s != DecisionPending && s != Accepted
  {
    var rows, truncated := Scan(r.relay, Keep(lane, false), RELAY_PAGES, RELAY_PAGE);
    if truncated { return InProgress; }
    if |rows| == 0 { return Done; }
    FilterSorted(r.relay, Keep(lane, false));
    var newest := 0;
    for i := 0 to |rows|
      invariant newest < |rows| && (i > 0 ==> newest == i - 1)
    {
      if i == 0 || rows[i].id > rows[newest].id { newest := i; }
    }
    ClassMeans(rows[newest].body);
    match Classify(rows[newest].body)
    case Landed => return Delivered;
    case Live => return InProgress;
    case _ => return Failed;
  }

  /** With nothing undelivered on the lane, its newest row is not live. */
  lemma NewestNotLive(r: Remote, lane: string)
    requires OnLane(r, lane, true) == [] && OnLane(r, lane, false) != []
    ensures LastRow(r, lane).deliveredAt != ""
  {
    var rows := OnLane(r, lane, false);
    var i := FilterFrom(r.relay, Keep(lane, false), |rows| - 1);
    if r.relay[i].body.deliveredAt == "" { FilterHas(r.relay, Keep(lane, true), i); }
  }

  /** progressLane, whatever happens between its reads: every answer has its exact reason in what was read. */
  method ProgressViews(v: Views, lane: string) returns (s: State)
    requires ViewsReady(v)
    ensures s == Done <==> Quiet(v, lane) && OnLane(v.history, lane, false) == []
    ensures s == Delivered <==> Quiet(v, lane) && LastArrived(v.history, lane)
    ensures s == DecisionPending <==> OpenRequest(v.pending, lane) || Unanswered(Take(v.pending.questions, CHAT_CAP), lane)
    ensures s == Failed <==>
      NothingPending(v.pending, lane) &&
      (GaveUp(v.relay, lane) || ChainAt(Chains(v, lane), v.pending.questions, lane, Failed) ||
       (Quiet(v, lane) && LastEnded(v.history, lane)))
    ensures s == Accepted <==>
      NothingPending(v.pending, lane) && !GaveUp(v.relay, lane) &&
      !ChainAt(Chains(v, lane), v.pending.questions, lane, Failed) &&
      ChainAt(Chains(v, lane), v.pending.questions, lane, Accepted)
  {
    var pending := PendingPart(v.pending, lane);
    if pending.Some? { return pending.value; }
    var failed, live, truncated := RelayPart(v.relay, lane);
    if failed { return Failed; }
    var chains := ChainsPart(v, lane);
    DoneNotFailed(Chains(v, lane), v.pending.questions, lane);
    if chains != Done { return chains; }
    var owed, outboxTruncated := OutboxPart(v.outbox, lane);
    if live || owed || truncated || outboxTruncated { return InProgress; }
    var quiet := TasksPart(v.tasks, lane);
    if !quiet { return InProgress; }
    s := HistoryPart(v.history, lane);
  }

  lemma DoneNotFailed(chains: string -> State, qs: seq<Question>, lane: string)
    ensures ChainsDone(chains, qs, lane) ==> !ChainAt(chains, qs, lane, Failed) && !ChainAt(chains, qs, lane, Accepted)
  {
    if ChainsDone(chains, qs, lane) {
      assert forall i | 0 <= i < |qs| :: ChainDone(chains, qs[i], lane);
    }
  }

  /**
   * Read from one state, done and delivered are answered exactly when that state is settled, told
   * apart by the newest relay row.
   */
  method ProgressLane(r: Remote, lane: string) returns (s: State)
    requires Ready(r)
    ensures s == Done <==> Settled(r, lane) && OnLane(r, lane, false) == []
    ensures s == Delivered <==> Settled(r, lane) && LastArrived(r, lane)
    ensures s == DecisionPending <==> OpenRequest(r, lane) || Unanswered(Take(r.questions, CHAT_CAP), lane)
    ensures s == Failed <==>
      NothingPending(r, lane) &&
      (GaveUp(r, lane) || ChainAt(Chains(At(r), lane), r.questions, lane, Failed) ||
       (Settled(r, lane) && OnLane(r, lane, false) != [] && !ToPane(LastRow(r, lane).deliveredTo)))
    ensures s == Accepted <==>
      NothingPending(r, lane) && !GaveUp(r, lane) &&
      !ChainAt(Chains(At(r), lane), r.questions, lane, Failed) && ChainAt(Chains(At(r), lane), r.questions, lane, Accepted)
  {
    s := ProgressViews(At(r), lane);
    if Settled(r, lane) && OnLane(r, lane, false) != [] { NewestNotLive(r, lane); }
  }

  // ---------------------------------------------------------------- what the answers mean

  /** Row i is the last with one of these event ids. */
  predicate NewestAt(rows: seq<Row<RelayEvent>>, ids: string -> bool, i: nat) {
    i < |rows| && ids(rows[i].body.eventId) && forall j | i < j < |rows| :: !ids(rows[j].body.eventId)
  }

  lemma {:induction false} NewestNone(rows: seq<Row<RelayEvent>>, ids: string -> bool)
    ensures Newest(rows, ids).None? <==> forall i | 0 <= i < |rows| :: !ids(rows[i].body.eventId)
  {
    if rows != [] {
      var init := rows[..|rows| - 1];
      NewestNone(init, ids);
      assert forall i | 0 <= i < |init| :: init[i] == rows[i];
    }
  }

  lemma {:induction false} NewestIs(rows: seq<Row<RelayEvent>>, ids: string -> bool) returns (i: nat)
    requires Newest(rows, ids).Some?
    ensures NewestAt(rows, ids, i) && rows[i].body == Newest(rows, ids).value
  {
    i := |rows| - 1;
    if !ids(rows[|rows| - 1].body.eventId) { i := NewestIs(rows[..|rows| - 1], ids); }
  }

  ghost predicate LandedNotice(r: Remote, lane: string, id: string, i: nat) {
    i < |r.relay| && r.relay[i].body.lane == lane && IsNotice(id, r.relay[i].body.eventId) && Arrived(r.relay[i].body)
  }

  /** What a done chain was read from: nothing owed, no undelivered row of it, and a newest row that landed. */
  lemma DoneReads(v: Views, lane: string, id: string)
    requires Notice(v, lane, id) == Done
    ensures lane != "" && !Owes(Take(v.unsent.outbox, OUTBOX_LIMIT), lane, id)
    ensures NewestNotice(Undelivered(v.live(id), lane), id).None?
    ensures var any := NewestNotice(AllRows(v.any(id), lane), id); any.Some? && Arrived(any.value)
  {
    LiveNotDone(v.live(id), lane, id);
    var any := NewestNotice(AllRows(v.any(id), lane), id);
    if any.Some? { ClassMeans(any.value); }
  }

  lemma DoneLanded(r: Remote, lane: string, id: string) returns (i: nat)
    requires var any := NewestNotice(AllRows(r, lane), id); any.Some? && Arrived(any.value)
    ensures LandedNotice(r, lane, id, i)
  {
    var k := NewestIs(AllRows(r, lane), NoticeOf(id));
    assert AllRows(r, lane)[k] == OnLane(r, lane, false)[k];
    i := FilterFrom(r.relay, Keep(lane, false), k);
  }

  lemma DoneNoneLeft(r: Remote, lane: string, id: string, i: nat)
    requires NewestNotice(Undelivered(r, lane), id).None? && |OnLane(r, lane, true)| <= RELAY_PAGES * RELAY_PAGE
    requires i < |r.relay| && r.relay[i].body.lane == lane && IsNotice(id, r.relay[i].body.eventId)
    ensures r.relay[i].body.deliveredAt != ""
  {
    NewestNone(Undelivered(r, lane), NoticeOf(id));
    if r.relay[i].body.deliveredAt == "" { FilterHas(r.relay, Keep(lane, true), i); }
  }

  /** A done chain has a row that really landed, and nothing of it is owed or, in a lane read whole, still undelivered. */
  lemma DoneChain(r: Remote, lane: string, id: string)
    requires Notice(At(r), lane, id) == Done
    ensures lane != "" && !Owes(Take(r.outbox, OUTBOX_LIMIT), lane, id)
    ensures exists i: nat :: LandedNotice(r, lane, id, i)
    ensures |OnLane(r, lane, true)| <= RELAY_PAGES * RELAY_PAGE ==>
      forall i | 0 <= i < |r.relay| && r.relay[i].body.lane == lane && IsNotice(id, r.relay[i].body.eventId) ::
        r.relay[i].body.deliveredAt != ""
  {
    DoneReads(At(r), lane, id);
    var k := DoneLanded(r, lane, id);
    forall i | 0 <= i < |r.relay| && r.relay[i].body.lane == lane && IsNotice(id, r.relay[i].body.eventId) &&
               |OnLane(r, lane, true)| <= RELAY_PAGES * RELAY_PAGE
      ensures r.relay[i].body.deliveredAt != ""
    {
      DoneNoneLeft(r, lane, id, i);
    }
  }

  /** An undelivered row never counts as done. */
  lemma LiveNotDone(r: Remote, lane: string, id: string)
    ensures var live := NewestNotice(Undelivered(r, lane), id); live.Some? ==> RowState(live.value) != Done
  {
    if NewestNotice(Undelivered(r, lane), id).Some? {
      var k := NewestIs(Undelivered(r, lane), NoticeOf(id));
      assert Undelivered(r, lane)[k] == OnLane(r, lane, true)[k];
      var i := FilterFrom(r.relay, Keep(lane, true), k);
    }
  }

  /** In a settled lane every relay row of the full state was delivered or stamped, and every task is over. */
  lemma SettledFully(r: Remote, lane: string, i: nat)
    requires Settled(r, lane)
    ensures i < |r.relay| && r.relay[i].body.lane == lane ==> r.relay[i].body.deliveredAt != ""
    ensures i < |r.tasks| && r.tasks[i].body.lane == lane ==> r.tasks[i].body.state in {"merged", "dropped"}
  {
    if i < |r.relay| && r.relay[i].body.lane == lane && r.relay[i].body.deliveredAt == "" {
      FilterHas(r.relay, Keep(lane, true), i);
    }
    if i < |r.tasks| && r.tasks[i].body.lane == lane {
      FilterHas(r.tasks, KeepTask(lane), i);
      var k :| 0 <= k < |Tasks(r, lane)| && Tasks(r, lane)[k] == r.tasks[i];
    }
  }

  // ---------------------------------------------------------------- notices and chains, in fields

  /** A notice of a question is named after it, with some positive revision. */
  lemma NoticeMeans(id: string, eventId: string)
    ensures IsNotice(id, eventId) <==> exists n :: PositiveNumber(n) && eventId == id + "-rev" + n + "-answered"
  {
    var prefix, suffix := id + "-rev", "-answered";
    if IsNotice(id, eventId) {
      var n := eventId[|prefix|..|eventId| - |suffix|];
      assert eventId == id + "-rev" + n + "-answered";
    }
    forall n | PositiveNumber(n) && eventId == id + "-rev" + n + "-answered" ensures IsNotice(id, eventId) {
      assert eventId == prefix + n + suffix;
      assert eventId[|prefix|..|eventId| - |suffix|] == n && eventId[|eventId| - |suffix|..] == suffix;
    }
  }

  lemma {:induction false} DecimalDigits(n: nat)
    ensures Decimal(n) != "" && Digit(Decimal(n)[0]) && (forall i | 0 <= i < |Decimal(n)| :: Digit(Decimal(n)[i])) && Number(Decimal(n)) == n
  {
    if n < 10 {
      assert Decimal(n)[..0] == "";
    } else {
      DecimalDigits(n / 10);
      var d := Decimal(n);
      assert d[..|d| - 1] == Decimal(n / 10) && d[|d| - 1] == '0' + (n % 10) as char;
      assert d[0] == Decimal(n / 10)[0];
    }
  }

  /** The event id an answer is sent under is recognised as a notice of its question, for every revision from 1 on. */
  lemma AnswerIsNotice(id: string, revision: nat)
    ensures IsNotice(id, id + "-rev" + Decimal(revision) + "-answered") <==> 1 <= revision < 0x8000_0000_0000_0000
  {
    var n := Decimal(revision);
    DecimalDigits(revision);
    assert PositiveNumber(n) <==> 1 <= revision < 0x8000_0000_0000_0000;
    var prefix, suffix, eventId := id + "-rev", "-answered", id + "-rev" + n + "-answered";
    assert eventId == prefix + n + suffix && eventId[|prefix|..|eventId| - |suffix|] == n;
    NoticeMeans(id, eventId);
  }

  /** Some row of the walk is a notice of the question, and the last one is this event. */
  ghost predicate LastNotice(rows: seq<Row<RelayEvent>>, id: string, e: RelayEvent) {
    exists i: nat :: NewestAt(rows, NoticeOf(id), i) && rows[i].body == e
  }

  lemma LastNoticeMeans(rows: seq<Row<RelayEvent>>, id: string)
    ensures forall e :: LastNotice(rows, id, e) <==> NewestNotice(rows, id) == Some(e)
  {
    if NewestNotice(rows, id).Some? {
      var k := NewestIs(rows, NoticeOf(id));
      forall i: nat | NewestAt(rows, NoticeOf(id), i) ensures i == k {
        assert NoticeOf(id)(rows[k].body.eventId) && NoticeOf(id)(rows[i].body.eventId);
      }
    } else {
      NewestNone(rows, NoticeOf(id));
    }
  }

  /** The row the chain is judged by: the last undelivered notice, or else the last of all. */
  ghost predicate JudgedBy(v: Views, lane: string, id: string, e: RelayEvent) {
    LastNotice(Undelivered(v.live(id), lane), id, e) ||
    ((forall x :: !LastNotice(Undelivered(v.live(id), lane), id, x)) && LastNotice(AllRows(v.any(id), lane), id, e))
  }

  lemma JudgedMeans(v: Views, lane: string, id: string, e: RelayEvent)
    ensures var live, any := NewestNotice(Undelivered(v.live(id), lane), id), NewestNotice(AllRows(v.any(id), lane), id);
      JudgedBy(v, lane, id, e) <==> Some(e) == (if live.Some? then live else any)
  {
    LastNoticeMeans(Undelivered(v.live(id), lane), id);
    LastNoticeMeans(AllRows(v.any(id), lane), id);
    var live := NewestNotice(Undelivered(v.live(id), lane), id);
    if live.Some? { assert LastNotice(Undelivered(v.live(id), lane), id, live.value); }
  }

  /** Among the first thousand outbox rows is a notice of the question, for this lane if there is one. */
  ghost predicate Unsent(rows: seq<OutboxRow>, lane: string, id: string) {
    exists i, n | 0 <= i < |rows| && i < 1000 ::
      PositiveNumber(n) && rows[i].eventId == id + "-rev" + n + "-answered" && (lane == "" || rows[i].targetLane == lane)
  }

  lemma UnsentMeans(rows: seq<OutboxRow>, lane: string, id: string)
    ensures Owes(Take(rows, OUTBOX_LIMIT), lane, id) <==> Unsent(rows, lane, id)
  {
    var taken := Take(rows, OUTBOX_LIMIT);
    if i :| 0 <= i < |taken| && IsNotice(id, taken[i].eventId) && (lane != "" ==> taken[i].targetLane == lane) {
      NoticeMeans(id, taken[i].eventId);
      var n :| PositiveNumber(n) && rows[i].eventId == id + "-rev" + n + "-answered";
    }
    if i, n :| 0 <= i < |rows| && i < 1000 &&
               PositiveNumber(n) && rows[i].eventId == id + "-rev" + n + "-answered" && (lane == "" || rows[i].targetLane == lane) {
      NoticeMeans(id, rows[i].eventId);
      assert taken[i] == rows[i];
    }
  }

  /** What counts as waiting for a decision: a request whose task is neither merged nor dropped, a question without an answer. */
  lemma PendingMeans(r: Remote, lane: string)
    ensures OpenRequest(r, lane) <==> exists q | q in r.requests :: q.lane == lane && q.taskState != "merged" && q.taskState != "dropped"
    ensures Unanswered(r.questions, lane) <==> exists q | q in r.questions :: q.lane == lane && !q.answered
  {
    if OpenRequest(r, lane) {
      var i :| 0 <= i < |r.requests| && r.requests[i].lane == lane && !Terminal(r.requests[i].taskState);
      assert r.requests[i] in r.requests;
    }
    if Unanswered(r.questions, lane) {
      var i :| 0 <= i < |r.questions| && r.questions[i].lane == lane && !r.questions[i].answered;
      assert r.questions[i] in r.questions;
    }
  }

  /**
   * A chain stands at accepted exactly when the outbox still owes a notice of the question; failing that, and
   * on a lane, at done or failed exactly when the row it is judged by reached a pane or never will.
   */
  lemma ChainExactly(v: Views, lane: string, id: string)
    ensures var s, owed := Notice(v, lane, id), Unsent(v.unsent.outbox, lane, id);
      (s == Accepted <==> owed) &&
      (s == Done <==> !owed && lane != "" && exists e :: JudgedBy(v, lane, id, e) && Arrived(e)) &&
      (s == Failed <==> !owed && lane != "" && exists e :: JudgedBy(v, lane, id, e) && Ended(e)) &&
      s in {Accepted, Done, Failed, InProgress}
  {
    var live, any := NewestNotice(Undelivered(v.live(id), lane), id), NewestNotice(AllRows(v.any(id), lane), id);
    var judged := if live.Some? then live else any;
    UnsentMeans(v.unsent.outbox, lane, id);
    forall e ensures JudgedBy(v, lane, id, e) <==> judged == Some(e) { JudgedMeans(v, lane, id, e); }
    if judged.Some? {
      ClassMeans(judged.value);
      assert JudgedBy(v, lane, id, judged.value);
    }
  }
}
