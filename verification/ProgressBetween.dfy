/** What an answer about a lane still proves when the remote state changes between its reads. */
module ProgressBetween {
  import opened PagedScan
  import opened Progress
  import opened Options

  /**
   * What may happen to the remote state: a row becomes owed, the drain posts an owed row and later
   * clears it, a relay event arrives from elsewhere, an attempt fails, a row is stamped, and the
   * requests, questions and tasks change in any way.
   */
  datatype Change =
    | Owe(row: OutboxRow)
    | Post(k: nat, id: int)
    | Clear(k: nat)
    | Arrive(event: Row<RelayEvent>)
    | Attempt(i: nat)
    | Stamp(i: nat, at: string, to: string)
    | Tables(requests: seq<Request>, questions: seq<Question>, tasks: seq<Row<Task>>)

  /** The owed row stands in the relay table of its lane. */
  predicate Posted(r: Remote, row: OutboxRow) {
    exists i | 0 <= i < |r.relay| :: IsPost(r.relay[i].body, row)
  }

  predicate IsPost(e: RelayEvent, row: OutboxRow) { e.lane == row.targetLane && e.eventId == row.eventId }

  /** Relay ids only grow. */
  predicate NewId(r: Remote, id: int) { id >= 1 && forall i | 0 <= i < |r.relay| :: r.relay[i].id < id }

  predicate Enabled(r: Remote, c: Change) {
    match c
    case Owe(_) => true
    case Post(k, id) => k < |r.outbox| && NewId(r, id)
    case Clear(k) => k < |r.outbox| && Posted(r, r.outbox[k])
    case Arrive(event) => NewId(r, event.id)
    case Attempt(i) => i < |r.relay|
    case Stamp(i, at, _) => i < |r.relay| && at != ""
    case Tables(_, _, tasks) => Sorted(tasks)
  }

  function PostOf(row: OutboxRow): RelayEvent { RelayEvent(row.targetLane, row.eventId, "", 0, "") }

  function Update(r: Remote, i: nat, e: RelayEvent): Remote
    requires i < |r.relay|
  {
    r.(relay := r.relay[i := r.relay[i].(body := e)])
  }

  function Apply(r: Remote, c: Change): Remote
    requires Enabled(r, c)
  {
    match c
    case Owe(row) => r.(outbox := r.outbox + [row])
    case Post(k, id) => r.(relay := r.relay + [Row(id, PostOf(r.outbox[k]))])
    case Clear(k) => r.(outbox := r.outbox[..k] + r.outbox[k + 1..])
    case Arrive(event) => r.(relay := r.relay + [event])
    case Attempt(i) => Update(r, i, r.relay[i].body.(attempts := r.relay[i].body.attempts + 1))
    case Stamp(i, at, to) => Update(r, i, r.relay[i].body.(deliveredAt := at, deliveredTo := to))
    case Tables(requests, questions, tasks) => r.(requests := requests, questions := questions, tasks := tasks)
  }

  predicate Possible(r: Remote, cs: seq<Change>)
    decreases |cs|
  {
    cs == [] || (Enabled(r, cs[0]) && Possible(Apply(r, cs[0]), cs[1..]))
  }

  function Run(r: Remote, cs: seq<Change>): Remote
    requires Possible(r, cs)
    decreases |cs|
  {
    if cs == [] then r else Run(Apply(r, cs[0]), cs[1..])
  }

  // ---------------------------------------------------------------- one state after another

  /** The same relay row later on: delivered stays delivered. */
  predicate Aged(a: Row<RelayEvent>, b: Row<RelayEvent>) {
    a.id == b.id && a.body.lane == b.body.lane && a.body.eventId == b.body.eventId &&
    (a.body.deliveredAt != "" ==> b.body.deliveredAt != "")
  }

  /** No relay row is lost, and no owed row leaves the outbox without standing in the relay table. */
  predicate Later(a: Remote, b: Remote) {
    |a.relay| <= |b.relay| && (forall i | 0 <= i < |a.relay| :: Aged(a.relay[i], b.relay[i])) &&
    forall row | row in a.outbox :: row in b.outbox || Posted(b, row)
  }

  lemma PostedStays(a: Remote, b: Remote, row: OutboxRow)
    requires Later(a, b) && Posted(a, row)
    ensures Posted(b, row)
  {
    var i :| 0 <= i < |a.relay| && IsPost(a.relay[i].body, row);
    assert Aged(a.relay[i], b.relay[i]);
  }

  lemma LaterTransitive(a: Remote, b: Remote, c: Remote)
    requires Later(a, b) && Later(b, c)
    ensures Later(a, c)
  {
    forall i | 0 <= i < |a.relay| ensures Aged(a.relay[i], c.relay[i]) {
      assert Aged(a.relay[i], b.relay[i]) && Aged(b.relay[i], c.relay[i]);
    }
    forall row | row in a.outbox ensures row in c.outbox || Posted(c, row) {
      if row !in b.outbox { PostedStays(b, c, row); }
    }
  }

  lemma ClearLater(r: Remote, k: nat)
    requires Enabled(r, Clear(k))
    ensures Later(r, Apply(r, Clear(k)))
  {
    var r' := Apply(r, Clear(k));
    forall row | row in r.outbox ensures row in r'.outbox || Posted(r', row) {
      if row == r.outbox[k] {
        var i :| 0 <= i < |r.relay| && IsPost(r.relay[i].body, row);
        assert IsPost(r'.relay[i].body, row);
      } else {
        var j :| 0 <= j < |r.outbox| && r.outbox[j] == row;
        assert r'.outbox[if j < k then j else j - 1] == row;
      }
    }
  }

  lemma StepLater(r: Remote, c: Change)
    requires Enabled(r, c)
    ensures Later(r, Apply(r, c))
  {
    if c.Clear? { ClearLater(r, c.k); }
  }

  lemma StepReady(r: Remote, c: Change)
    requires Enabled(r, c) && Ready(r)
    ensures Ready(Apply(r, c))
  {
  }

  /** Whatever happens, the state afterwards is a later one, and as well ordered. */
  lemma {:induction false} RunLater(r: Remote, cs: seq<Change>)
    requires Possible(r, cs)
    ensures Later(r, Run(r, cs)) && (Ready(r) ==> Ready(Run(r, cs)))
    decreases |cs|
  {
    if cs != [] {
      var r' := Apply(r, cs[0]);
      StepLater(r, cs[0]);
      if Ready(r) { StepReady(r, cs[0]); }
      RunLater(r', cs[1..]);
      LaterTransitive(r, r', Run(r, cs));
    }
  }

  /** The reads see the states of one run, in the order they are made. */
  ghost predicate InOrder(v: Views) {
    Later(v.pending, v.relay) && Later(v.relay, v.unsent) && Later(v.outbox, v.tasks) && Later(v.tasks, v.history) &&
    forall id: string :: Later(v.unsent, v.live(id)) && Later(v.live(id), v.any(id)) && Later(v.any(id), v.outbox)
  }

  /** From the walk over the undelivered rows to the history. */
  lemma Ordered(v: Views)
    requires InOrder(v)
    ensures Later(v.relay, v.outbox) && Later(v.outbox, v.history) && Later(v.relay, v.history) && Later(v.pending, v.outbox)
    ensures forall id: string :: Later(v.any(id), v.history)
  {
    var id := "";
    assert Later(v.unsent, v.live(id)) && Later(v.live(id), v.any(id)) && Later(v.any(id), v.outbox);
    LaterTransitive(v.unsent, v.live(id), v.any(id));
    LaterTransitive(v.unsent, v.any(id), v.outbox);
    LaterTransitive(v.relay, v.unsent, v.outbox);
    LaterTransitive(v.outbox, v.tasks, v.history);
    LaterTransitive(v.relay, v.outbox, v.history);
    LaterTransitive(v.pending, v.relay, v.outbox);
    forall id: string ensures Later(v.any(id), v.history) {
      LaterTransitive(v.any(id), v.outbox, v.history);
    }
  }

  // ---------------------------------------------------------------- what done proves

  /** Nothing on the lane is owed or was ever posted. */
  predicate Untouched(r: Remote, lane: string) {
    OnLane(r, lane, false) == [] && !OwesLane(r.outbox, lane)
  }

  lemma NoRows(r: Remote, lane: string)
    ensures OnLane(r, lane, false) == [] <==> forall i | 0 <= i < |r.relay| :: r.relay[i].body.lane != lane
  {
    var keep := Keep(lane, false);
    if OnLane(r, lane, false) == [] {
      forall i | 0 <= i < |r.relay| ensures r.relay[i].body.lane != lane {
        if r.relay[i].body.lane == lane { FilterHas(r.relay, keep, i); }
      }
    } else {
      var i := FilterFrom(r.relay, keep, 0);
    }
  }

  /** A lane without relay rows had none before, and what it owed before it still owes. */
  lemma UntouchedBefore(a: Remote, b: Remote, lane: string)
    requires Later(a, b) && Untouched(b, lane)
    ensures Untouched(a, lane)
  {
    NoRows(a, lane);
    NoRows(b, lane);
    forall i | 0 <= i < |a.relay| ensures a.relay[i].body.lane != lane {
      assert Aged(a.relay[i], b.relay[i]);
    }
    forall k | 0 <= k < |a.outbox| ensures a.outbox[k].targetLane != lane {
      assert a.outbox[k] in a.outbox;
    }
  }

  /**
   * Done, read across any run: up to the second reading of the outbox the lane had no relay row and
   * owed nothing, and no question of the lane had been answered in the pending view.
   */
  lemma DoneProves(v: Views, lane: string, x: Remote)
    requires InOrder(v) && Quiet(v, lane) && OnLane(v.history, lane, false) == [] && Later(x, v.outbox)
    ensures Untouched(x, lane) && Untouched(v.outbox, lane)
    ensures forall q | q in v.pending.questions :: q.lane != lane
  {
    Ordered(v);
    BeforeEmpty(v.outbox, v.history, lane);
    UntouchedBefore(x, v.outbox, lane);
    forall q | q in v.pending.questions ensures q.lane != lane {
      if q.lane == lane { AnsweredHasRow(v, lane, q); }
    }
  }

  lemma BeforeEmpty(a: Remote, b: Remote, lane: string)
    requires Later(a, b) && OnLane(b, lane, false) == []
    ensures OnLane(a, lane, false) == []
  {
    NoRows(a, lane);
    NoRows(b, lane);
    forall i | 0 <= i < |a.relay| ensures a.relay[i].body.lane != lane {
      assert Aged(a.relay[i], b.relay[i]);
    }
  }

  /** In a quiet reading a question of the lane is answered and its notice landed, so the history is not empty. */
  lemma AnsweredHasRow(v: Views, lane: string, q: Question)
    requires InOrder(v) && Quiet(v, lane) && q in v.pending.questions && q.lane == lane
    ensures OnLane(v.history, lane, false) != []
  {
    var k :| 0 <= k < |v.pending.questions| && v.pending.questions[k] == q;
    assert ChainDone(Chains(v, lane), v.pending.questions[k], lane);
    assert q.answered;
    DoneReads(v, lane, q.id);
    var i := DoneLanded(v.any(q.id), lane, q.id);
    Ordered(v);
    NoRows(v.any(q.id), lane);
    if OnLane(v.history, lane, false) == [] { BeforeEmpty(v.any(q.id), v.history, lane); }
  }

  // ---------------------------------------------------------------- what delivered proves

  /** A row of the lane still to be delivered. */
  predicate Waiting(r: Remote, lane: string, i: nat) {
    i < |r.relay| && r.relay[i].body.lane == lane && r.relay[i].body.deliveredAt == ""
  }

  /** It was posted since the other state. */
  predicate PostedSince(a: Remote, i: nat) { i >= |a.relay| }

  lemma NoneWaiting(r: Remote, lane: string)
    ensures OnLane(r, lane, true) == [] <==> forall i: nat :: !Waiting(r, lane, i)
  {
    var keep := Keep(lane, true);
    if OnLane(r, lane, true) == [] {
      forall i: nat ensures !Waiting(r, lane, i) {
        if Waiting(r, lane, i) { FilterHas(r.relay, keep, i); }
      }
    } else {
      var i := FilterFrom(r.relay, keep, 0);
      assert Waiting(r, lane, i);
    }
  }

  /** What was delivered to the last row before stays so: only a row posted since can be waiting. */
  lemma WaitingSince(a: Remote, b: Remote, lane: string, i: nat)
    requires Later(a, b) && OnLane(a, lane, true) == [] && Waiting(b, lane, i)
    ensures PostedSince(a, i)
  {
    NoneWaiting(a, lane);
    assert !Waiting(a, lane, i) && (i < |a.relay| ==> Aged(a.relay[i], b.relay[i]));
  }

  /** Some later row of the lane landed. */
  ghost predicate Overtaken(r: Remote, lane: string, i: nat) {
    exists j | i < j < |r.relay| :: r.relay[j].body.lane == lane && Arrived(r.relay[j].body)
  }

  /** The newest row of the lane has the largest index. */
  lemma NewestLast(r: Remote, lane: string) returns (j: nat)
    requires Sorted(r.relay) && OnLane(r, lane, false) != []
    ensures j < |r.relay| && r.relay[j] == OnLane(r, lane, false)[|OnLane(r, lane, false)| - 1] && r.relay[j].body.lane == lane
    ensures forall i | 0 <= i < |r.relay| && r.relay[i].body.lane == lane :: i <= j
  {
    var keep, rows := Keep(lane, false), OnLane(r, lane, false);
    j := FilterFrom(r.relay, keep, |rows| - 1);
    FilterSorted(r.relay, keep);
    forall i | 0 <= i < |r.relay| && r.relay[i].body.lane == lane ensures i <= j {
      FilterHas(r.relay, keep, i);
      var m :| 0 <= m < |rows| && rows[m] == r.relay[i];
    }
  }

  lemma WaitingOvertaken(r: Remote, lane: string, i: nat)
    requires Sorted(r.relay) && LastArrived(r, lane) && Waiting(r, lane, i)
    ensures Overtaken(r, lane, i)
  {
    var j := NewestLast(r, lane);
    assert i != j;
  }

  /**
   * Delivered, read across any run: every row waiting at the end was posted after the walk over the
   * undelivered rows, and a later row of the lane landed.
   */
  lemma DeliveredProves(v: Views, lane: string, i: nat)
    requires InOrder(v) && Quiet(v, lane) && Ready(v.history) && LastArrived(v.history, lane)
    ensures Waiting(v.history, lane, i) ==> PostedSince(v.relay, i) && Overtaken(v.history, lane, i)
  {
    if Waiting(v.history, lane, i) {
      Ordered(v);
      WaitingSince(v.relay, v.history, lane, i);
      WaitingOvertaken(v.history, lane, i);
    }
  }

  /** Whatever the lane owed in a state up to the second reading of the outbox stood in the relay table by then. */
  lemma QuietPosted(v: Views, lane: string, x: Remote, row: OutboxRow)
    requires Quiet(v, lane) && Later(x, v.outbox) && row in x.outbox && row.targetLane == lane
    ensures Posted(v.outbox, row)
  {
    assert forall k | 0 <= k < |v.outbox.outbox| :: v.outbox.outbox[k].targetLane != lane;
  }

  /** Nothing of the lane was posted between the two walks over its relay rows. */
  predicate NoPosts(v: Views, lane: string) {
    forall i | |v.relay.relay| <= i < |v.history.relay| :: v.history.relay[i].body.lane != lane
  }

  /** Without a post in between, nothing of the lane is waiting at the end either. */
  lemma QuietThroughout(v: Views, lane: string)
    requires InOrder(v) && Quiet(v, lane) && NoPosts(v, lane)
    ensures OnLane(v.history, lane, true) == []
  {
    Ordered(v);
    NoneWaiting(v.history, lane);
    forall i: nat ensures !Waiting(v.history, lane, i) {
      if Waiting(v.history, lane, i) { WaitingSince(v.relay, v.history, lane, i); }
    }
  }

  // ---------------------------------------------------------------- delivered with a row still waiting

  const LANE: string := "build"

  function Both(): Remote {
    Remote([], [], [], [OutboxRow("a", LANE), OutboxRow("b", LANE)], [])
  }

  function Drained(): seq<Change> {
    [Post(0, 1), Post(1, 2), Clear(0), Clear(0), Stamp(1, "now", "mac/1")]
  }

  function Left(): Remote {
    Remote([], [], [Row(1, RelayEvent(LANE, "a", "", 0, "")), Row(2, RelayEvent(LANE, "b", "now", 0, "mac/1"))], [], [])
  }

  /** Both rows are posted, and still in the outbox. */
  function Doubled(): Remote {
    Both().(relay := [Row(1, RelayEvent(LANE, "a", "", 0, "")), Row(2, RelayEvent(LANE, "b", "", 0, ""))])
  }

  /** One more change at the end of a run. */
  lemma {:induction false} Extend(r: Remote, cs: seq<Change>, c: Change)
    requires Possible(r, cs) && Enabled(Run(r, cs), c)
    ensures Possible(r, cs + [c]) && Run(r, cs + [c]) == Apply(Run(r, cs), c)
    decreases |cs|
  {
    if cs == [] {
      assert cs + [c] == [c];
    } else {
      Extend(Apply(r, cs[0]), cs[1..], c);
      assert (cs + [c])[1..] == cs[1..] + [c];
    }
  }

  lemma PostBoth()
    ensures Enabled(Both(), Post(0, 1)) && Enabled(Apply(Both(), Post(0, 1)), Post(1, 2))
    ensures Apply(Apply(Both(), Post(0, 1)), Post(1, 2)) == Doubled()
  {
  }

  lemma ClearBoth()
    ensures Enabled(Doubled(), Clear(0)) && Enabled(Apply(Doubled(), Clear(0)), Clear(0))
    ensures Apply(Apply(Doubled(), Clear(0)), Clear(0)) == Doubled().(outbox := [])
  {
    var r := Doubled();
    assert IsPost(r.relay[0].body, r.outbox[0]);
    var r' := Apply(r, Clear(0));
    assert r'.outbox == [OutboxRow("b", LANE)] && IsPost(r'.relay[1].body, r'.outbox[0]);
  }

  lemma PostedRun()
    ensures Possible(Both(), [] + [Post(0, 1)] + [Post(1, 2)]) && Run(Both(), [] + [Post(0, 1)] + [Post(1, 2)]) == Doubled()
  {
    PostBoth();
    Extend(Both(), [], Post(0, 1));
    Extend(Both(), [] + [Post(0, 1)], Post(1, 2));
  }

  lemma ClearedRun(cs: seq<Change>)
    requires Possible(Both(), cs) && Run(Both(), cs) == Doubled()
    ensures Possible(Both(), cs + [Clear(0)] + [Clear(0)]) && Run(Both(), cs + [Clear(0)] + [Clear(0)]) == Doubled().(outbox := [])
  {
    ClearBoth();
    Extend(Both(), cs, Clear(0));
    Extend(Both(), cs + [Clear(0)], Clear(0));
  }

  lemma DrainedRun()
    ensures Possible(Both(), Drained()) && Run(Both(), Drained()) == Left()
  {
    var posts := [] + [Post(0, 1)] + [Post(1, 2)];
    PostedRun();
    ClearedRun(posts);
    StampedRun(posts + [Clear(0)] + [Clear(0)]);
    assert Drained() == posts + [Clear(0)] + [Clear(0)] + [Stamp(1, "now", "mac/1")];
  }

  lemma StampedRun(cs: seq<Change>)
    requires Possible(Both(), cs) && Run(Both(), cs) == Doubled().(outbox := [])
    ensures Possible(Both(), cs + [Stamp(1, "now", "mac/1")]) && Run(Both(), cs + [Stamp(1, "now", "mac/1")]) == Left()
  {
    Extend(Both(), cs, Stamp(1, "now", "mac/1"));
  }

  /** The undelivered rows are read before the drain posts two owed rows, everything else after. */
  function Straddling(): Views {
    Views(Both(), Both(), Both(), (id: string) => Both(), (id: string) => Both(), Left(), Left(), Left())
  }

  lemma FilterTwo<T>(x: Row<T>, y: Row<T>, keep: T -> bool)
    requires keep(x.body) && keep(y.body)
    ensures Filter([x, y], keep) == [x, y]
  {
    FilterPush([], x, keep);
    FilterPush([x], y, keep);
    assert [] + [x] == [x] && [x] + [y] == [x, y];
  }

  lemma LeftLanded()
    ensures Ready(Left()) && OnLane(Left(), LANE, false) == Left().relay && LastArrived(Left(), LANE) && Waiting(Left(), LANE, 0)
  {
    LandedStamp();
    var rows := Left().relay;
    FilterTwo(rows[0], rows[1], Keep(LANE, false));
    assert rows == [rows[0], rows[1]];
  }

  lemma StraddlingQuiet()
    requires |OnLane(Left(), LANE, false)| == 2
    ensures Quiet(Straddling(), LANE)
  {
    assert Straddling().relay.relay == [] && Straddling().tasks.tasks == [];
  }

  lemma StraddlingInOrder()
    requires Later(Both(), Left()) && Later(Both(), Both()) && Later(Left(), Left())
    ensures InOrder(Straddling())
  {
  }

  /** The lane is then answered delivered while its first row is still waiting. */
  lemma DeliveredTooSoon()
    ensures Possible(Both(), Drained()) && Run(Both(), Drained()) == Left() && InOrder(Straddling())
    ensures ViewsReady(Straddling()) && Quiet(Straddling(), LANE) && LastArrived(Left(), LANE) && Waiting(Left(), LANE, 0)
  {
    DrainedRun();
    RunLater(Both(), Drained());
    RunLater(Both(), []);
    RunLater(Left(), []);
    StraddlingInOrder();
    LeftLanded();
    StraddlingQuiet();
  }

  lemma LandedStamp()
    ensures ToPane("mac/1")
  {
    assert "mac/1" == "mac" + "/" + "1";
    assert PaneStamp("mac/1", "mac", "1");
  }
}
