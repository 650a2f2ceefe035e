/**
 * The lock-free lane-event log: a producer lists the directory, then publishes its
 * record with a link that never replaces a name, moving to the next sequence number
 * when another producer got there first. Files are never deleted. A listing takes time:
 * it shows every file that was there when it began, and any of those linked meanwhile.
 */
module LaneEventLog {
  /** (owner_lane, event_id). */
  type Key = (string, string)

  /** A published record. One that does not fit the 16 KiB read cap has no readable key. */
  datatype Entry = Entry(key: Key, readable: bool, writer: nat)

  datatype Stage =
    | Starting
    | Listing(there: set<nat>)         // opened the directory when these files were in it
    | Linking(highest: nat)            // about to link at highest + 1
    | Comparing(highest: nat)          // found a file at this sequence, about to read its key
    | Published(at: nat)
    | Duplicate

  datatype Producer = Producer(key: Key, readable: bool, stage: Stage)

  /** `foreign` are the keys of other readable files, `base` the highest sequence among other names. */
  datatype Log = Log(files: map<nat, Entry>, foreign: set<Key>, base: nat, producers: map<nat, Producer>)

  datatype Event =
    | Start(p: nat, key: Key, readable: bool)
    | Open(p: nat)
    | Scan(p: nat, seen: set<nat>, highest: nat)     // the listing is over: the files it showed, the highest sequence
    | Link(p: nat)
    | Compare(p: nat)

  predicate Holds(e: Entry, k: Key) { e.readable && e.key == k }

  /** Some readable file already carries the key. */
  predicate Carried(s: Log, k: Key) {
    k in s.foreign || exists i | i in s.files :: Holds(s.files[i], k)
  }

  /** One of the files a listing showed does. */
  predicate Shown(s: Log, seen: set<nat>, k: Key) {
    k in s.foreign || exists i | i in seen && i in s.files :: Holds(s.files[i], k)
  }

  predicate IsHighest(files: set<nat>, base: nat, m: nat) {
    m >= base && (forall i | i in files :: i <= m) && (m == base || m in files)
  }

  predicate Enabled(s: Log, e: Event) {
    match e
    case Start(p, _, _) => p !in s.producers
    case Open(p) => p in s.producers && s.producers[p].stage.Starting?
    case Scan(p, seen, m) =>
      p in s.producers && s.producers[p].stage.Listing? && s.producers[p].stage.there <= seen <= s.files.Keys &&
      IsHighest(seen, s.base, m)
    case Link(p) => p in s.producers && s.producers[p].stage.Linking?
    case Compare(p) => p in s.producers && s.producers[p].stage.Comparing? && s.producers[p].stage.highest in s.files
  }

  function Staged(s: Log, p: nat, stage: Stage): map<nat, Producer>
    requires p in s.producers
  {
    s.producers[p := s.producers[p].(stage := stage)]
  }

  function Apply(s: Log, e: Event): Log
    requires Enabled(s, e)
  {
    match e
    case Start(p, k, r) => s.(producers := s.producers[p := Producer(k, r, Starting)])
    case Open(p) => s.(producers := Staged(s, p, Listing(s.files.Keys)))
    case Scan(p, seen, m) =>
      s.(producers := Staged(s, p, if Shown(s, seen, s.producers[p].key) then Duplicate else Linking(m)))
    case Link(p) =>
      var x := s.producers[p];
      var at := x.stage.highest + 1;
      s.(files := if at in s.files then s.files else s.files[at := Entry(x.key, x.readable, p)],
         producers := Staged(s, p, if at in s.files then Comparing(at) else Published(at)))
    case Compare(p) =>
      var x := s.producers[p];
      s.(producers := Staged(s, p, if Holds(s.files[x.stage.highest], x.key) then Duplicate else Linking(x.stage.highest)))
  }

  // ---------------------------------------------------------------- what every run keeps

  /** Above `floor`, where the run began, sequences are used without a gap up to `top`. */
  ghost predicate Packed(s: Log, floor: nat, top: nat) {
    floor <= top && s.base <= floor && (floor == s.base || floor in s.files) &&
    (forall i | i in s.files :: i <= top) && (forall i | floor < i <= top :: i in s.files)
  }

  ghost predicate Placed(s: Log, floor: nat, top: nat, p: nat)
    requires p in s.producers
  {
    var x := s.producers[p];
    match x.stage
    case Starting => true
    case Listing(there) => there <= s.files.Keys && forall i | i in s.files && i <= floor :: i in there
    case Linking(h) => floor <= h <= top
    case Comparing(h) => floor < h <= top
    case Published(at) => at in s.files && s.files[at] == Entry(x.key, x.readable, p)
    case Duplicate => Carried(s, x.key)
  }

  ghost predicate Inv(s: Log, floor: nat, top: nat) {
    Packed(s, floor, top) && forall p | p in s.producers :: Placed(s, floor, top, p)
  }

  lemma KeepStart(s: Log, floor: nat, top: nat, p: nat, k: Key, r: bool)
    requires Inv(s, floor, top) && Enabled(s, Start(p, k, r))
    ensures Inv(Apply(s, Start(p, k, r)), floor, top)
  {
    var s' := Apply(s, Start(p, k, r));
    forall q | q in s'.producers ensures Placed(s', floor, top, q) {
      if q != p { assert Placed(s, floor, top, q); }
    }
  }

  /** A step that moves one producer and writes no file. */
  lemma KeepStage(s: Log, floor: nat, top: nat, p: nat, stage: Stage)
    requires Inv(s, floor, top) && p in s.producers
    requires Placed(s.(producers := Staged(s, p, stage)), floor, top, p)
    ensures Inv(s.(producers := Staged(s, p, stage)), floor, top)
  {
    var s' := s.(producers := Staged(s, p, stage));
    forall q | q in s'.producers ensures Placed(s', floor, top, q) {
      if q != p { assert Placed(s, floor, top, q); }
    }
  }

  lemma ShownCarried(s: Log, seen: set<nat>, k: Key)
    requires Shown(s, seen, k)
    ensures Carried(s, k)
  {
    if k !in s.foreign {
      var i :| i in seen && i in s.files && Holds(s.files[i], k);
      assert i in s.files && Holds(s.files[i], k);
    }
  }

  lemma KeepScan(s: Log, floor: nat, top: nat, p: nat, seen: set<nat>, m: nat)
    requires Inv(s, floor, top) && Enabled(s, Scan(p, seen, m))
    ensures Inv(Apply(s, Scan(p, seen, m)), floor, top)
  {
    var k := s.producers[p].key;
    assert Placed(s, floor, top, p);
    if Shown(s, seen, k) {
      ShownCarried(s, seen, k);
      KeepStage(s, floor, top, p, Duplicate);
    } else {
      KeepStage(s, floor, top, p, Linking(m));
    }
  }

  lemma KeepCompare(s: Log, floor: nat, top: nat, p: nat)
    requires Inv(s, floor, top) && Enabled(s, Compare(p))
    ensures Inv(Apply(s, Compare(p)), floor, top)
  {
    var x := s.producers[p];
    assert Placed(s, floor, top, p);
    if Holds(s.files[x.stage.highest], x.key) {
      assert Carried(s, x.key);
      KeepStage(s, floor, top, p, Duplicate);
    } else {
      KeepStage(s, floor, top, p, Linking(x.stage.highest));
    }
  }

  /** A link succeeds only at the end, one past everything published. */
  lemma LinksAtEnd(s: Log, floor: nat, top: nat, p: nat)
    requires Inv(s, floor, top) && Enabled(s, Link(p))
    ensures s.producers[p].stage.highest + 1 !in s.files <==> s.producers[p].stage.highest == top
  {
    assert Placed(s, floor, top, p);
  }

  lemma CarriedStays(s: Log, s': Log, k: Key)
    requires Carried(s, k) && s'.foreign == s.foreign
    requires forall i | i in s.files :: i in s'.files && s'.files[i] == s.files[i]
    ensures Carried(s', k)
  {
    if k !in s.foreign {
      var i :| i in s.files && Holds(s.files[i], k);
      assert Holds(s'.files[i], k);
    }
  }

  lemma KeepLink(s: Log, floor: nat, top: nat, p: nat) returns (top': nat)
    requires Inv(s, floor, top) && Enabled(s, Link(p))
    ensures Inv(Apply(s, Link(p)), floor, top')
    ensures top' == if s.producers[p].stage.highest + 1 in s.files then top else s.producers[p].stage.highest + 1
  {
    var s' := Apply(s, Link(p));
    var at := s.producers[p].stage.highest + 1;
    LinksAtEnd(s, floor, top, p);
    assert Placed(s, floor, top, p);
    top' := if at in s.files then top else at;
    forall q | q in s'.producers ensures Placed(s', floor, top', q) {
      assert Placed(s, floor, top, q);
      if q != p && s.producers[q].stage.Duplicate? { CarriedStays(s, s', s.producers[q].key); }
    }
  }

  lemma Keep(s: Log, floor: nat, top: nat, e: Event) returns (top': nat)
    requires Inv(s, floor, top) && Enabled(s, e)
    ensures Inv(Apply(s, e), floor, top')
  {
    top' := top;
    match e {
      case Start(p, k, r) => KeepStart(s, floor, top, p, k, r);
      case Open(p) => KeepStage(s, floor, top, p, Listing(s.files.Keys));
      case Scan(p, seen, m) => KeepScan(s, floor, top, p, seen, m);
      case Link(p) => top' := KeepLink(s, floor, top, p);
      case Compare(p) => KeepCompare(s, floor, top, p);
    }
  }

  // ---------------------------------------------------------------- one readable file per key

  /** No file up to sequence h holds the key where a reader could see it. */
  ghost predicate Unseen(s: Log, k: Key, h: int) {
    k !in s.foreign && forall i | i in s.files && i <= h :: !Holds(s.files[i], k)
  }

  /** A file written in this run repeats the key of an earlier file only if nobody can read that one. */
  ghost predicate NoRepeat(s: Log, floor: nat) {
    forall j | j in s.files && j > floor :: Unseen(s, s.files[j].key, j - 1)
  }

  /** A producer about to link knows that no file up to there carries its key. */
  ghost predicate Knows(s: Log, p: nat)
    requires p in s.producers
  {
    var x := s.producers[p];
    (x.stage.Linking? ==> Unseen(s, x.key, x.stage.highest)) && (x.stage.Comparing? ==> Unseen(s, x.key, x.stage.highest - 1))
  }

  ghost predicate Single(s: Log, floor: nat) {
    NoRepeat(s, floor) && forall p | p in s.producers :: Knows(s, p)
  }

  /** The listing left out an earlier file than its highest one, and that file carries the producer's key. */
  predicate Misses(s: Log, e: Event) {
    e.Scan? && e.p in s.producers && !Shown(s, e.seen, s.producers[e.p].key) &&
    exists i | i in s.files :: i !in e.seen && i <= e.highest && Holds(s.files[i], s.producers[e.p].key)
  }

  lemma SingleStage(s: Log, floor: nat, p: nat, stage: Stage)
    requires Single(s, floor) && p in s.producers && Knows(s.(producers := Staged(s, p, stage)), p)
    ensures Single(s.(producers := Staged(s, p, stage)), floor)
  {
    var s' := s.(producers := Staged(s, p, stage));
    forall q | q in s'.producers ensures Knows(s', q) {
      if q != p { assert Knows(s, q); }
    }
    forall j | j in s'.files && j > floor ensures Unseen(s', s'.files[j].key, j - 1) { assert Unseen(s, s.files[j].key, j - 1); }
  }

  lemma SingleScan(s: Log, floor: nat, p: nat, seen: set<nat>, m: nat)
    requires Single(s, floor) && Enabled(s, Scan(p, seen, m)) && !Misses(s, Scan(p, seen, m))
    ensures Single(Apply(s, Scan(p, seen, m)), floor)
  {
    var k := s.producers[p].key;
    if Shown(s, seen, k) {
      SingleStage(s, floor, p, Duplicate);
    } else {
      SingleStage(s, floor, p, Linking(m));
    }
  }

  lemma SingleCompare(s: Log, floor: nat, p: nat)
    requires Single(s, floor) && Enabled(s, Compare(p))
    ensures Single(Apply(s, Compare(p)), floor)
  {
    var x := s.producers[p];
    assert Knows(s, p);
    SingleStage(s, floor, p, if Holds(s.files[x.stage.highest], x.key) then Duplicate else Linking(x.stage.highest));
  }

  lemma SingleLink(s: Log, floor: nat, top: nat, p: nat)
    requires Inv(s, floor, top) && Single(s, floor) && Enabled(s, Link(p))
    ensures Single(Apply(s, Link(p)), floor)
  {
    var s' := Apply(s, Link(p));
    LinksAtEnd(s, floor, top, p);
    assert Placed(s, floor, top, p) && Knows(s, p);
    forall q | q in s'.producers ensures Knows(s', q) {
      assert Knows(s, q) && Placed(s, floor, top, q);
    }
    forall j | j in s'.files && j > floor ensures Unseen(s', s'.files[j].key, j - 1) {
      if j in s.files { assert Unseen(s, s.files[j].key, j - 1); }
    }
  }

  lemma SingleStart(s: Log, floor: nat, p: nat, k: Key, r: bool)
    requires Single(s, floor) && Enabled(s, Start(p, k, r))
    ensures Single(Apply(s, Start(p, k, r)), floor)
  {
    var s' := Apply(s, Start(p, k, r));
    forall q | q in s'.producers ensures Knows(s', q) {
      if q != p { assert Knows(s, q); }
    }
    forall j | j in s'.files && j > floor ensures Unseen(s', s'.files[j].key, j - 1) { assert Unseen(s, s.files[j].key, j - 1); }
  }

  lemma SingleStep(s: Log, floor: nat, top: nat, e: Event)
    requires Inv(s, floor, top) && Single(s, floor) && Enabled(s, e) && !Misses(s, e)
    ensures Single(Apply(s, e), floor)
  {
    match e
    case Start(p, k, r) => SingleStart(s, floor, p, k, r);
    case Open(p) => SingleStage(s, floor, p, Listing(s.files.Keys));
    case Scan(p, seen, m) => SingleScan(s, floor, p, seen, m);
    case Link(p) => SingleLink(s, floor, top, p);
    case Compare(p) => SingleCompare(s, floor, p);
  }

  lemma MissBreaks(s: Log, floor: nat, e: Event)
    requires Enabled(s, e) && Misses(s, e)
    ensures !Single(Apply(s, e), floor)
  {
    var s', k := Apply(s, e), s.producers[e.p].key;
    var i :| i in s.files && i !in e.seen && i <= e.highest && Holds(s.files[i], k);
    assert !Unseen(s', k, e.highest);
    assert !Knows(s', e.p);
  }

  /** A step keeps it so that every producer knows what it is about to repeat exactly when it is no listing that missed its own key. */
  lemma ScanExactly(s: Log, floor: nat, top: nat, e: Event)
    requires Inv(s, floor, top) && Single(s, floor) && Enabled(s, e)
    ensures Single(Apply(s, e), floor) <==> !Misses(s, e)
  {
    if Misses(s, e) { MissBreaks(s, floor, e); } else { SingleStep(s, floor, top, e); }
  }

  /** A listing that shows every earlier file of the files it shows misses nothing. */
  lemma WholeSees(s: Log, floor: nat, top: nat, p: nat, seen: set<nat>, m: nat)
    requires Inv(s, floor, top) && Enabled(s, Scan(p, seen, m))
    requires forall i, j | i in s.files && j in seen && i < j :: i in seen
    ensures !Misses(s, Scan(p, seen, m))
  {
    assert Placed(s, floor, top, p);
    forall i | i in s.files && i <= m ensures i in seen {
      if i > floor { assert m in seen; }
    }
  }

  // ---------------------------------------------------------------- whole runs

  ghost predicate Legal(s: Log, es: seq<Event>)
    decreases |es|
  {
    es == [] || (Enabled(s, es[0]) && Legal(Apply(s, es[0]), es[1..]))
  }

  ghost function Run(s: Log, es: seq<Event>): Log
    requires Legal(s, es)
    decreases |es|
  {
    if es == [] then s else Run(Apply(s, es[0]), es[1..])
  }

  /** No listing of the run misses the key of its producer. */
  ghost predicate Careful(s: Log, es: seq<Event>)
    requires Legal(s, es)
    decreases |es|
  {
    es == [] || (!Misses(s, es[0]) && Careful(Apply(s, es[0]), es[1..]))
  }

  lemma {:induction false} RunInv(s: Log, floor: nat, top: nat, es: seq<Event>) returns (top': nat)
    requires Inv(s, floor, top) && Legal(s, es)
    ensures Inv(Run(s, es), floor, top')
    decreases |es|
  {
    top' := top;
    if es != [] {
      top' := Keep(s, floor, top, es[0]);
      top' := RunInv(Apply(s, es[0]), floor, top', es[1..]);
    }
  }

  lemma {:induction false} RunSingle(s: Log, floor: nat, top: nat, es: seq<Event>)
    requires Inv(s, floor, top) && Single(s, floor) && Legal(s, es) && Careful(s, es)
    ensures Single(Run(s, es), floor)
    decreases |es|
  {
    if es != [] {
      var top' := Keep(s, floor, top, es[0]);
      SingleStep(s, floor, top, es[0]);
      RunSingle(Apply(s, es[0]), floor, top', es[1..]);
    }
  }

  /** A directory nobody is writing to yet; `floor` is its highest sequence. */
  ghost predicate Fresh(s: Log, floor: nat) {
    s.producers == map[] && IsHighest(s.files.Keys, s.base, floor)
  }

  lemma FreshInv(s: Log, floor: nat)
    requires Fresh(s, floor)
    ensures Inv(s, floor, floor) && Single(s, floor)
  {
  }

  /** Of two files with one key the earlier one is unreadable, unless both were there before the run. */
  lemma OneFilePerKey(s: Log, floor: nat, es: seq<Event>, i: nat, j: nat)
    requires Fresh(s, floor) && Legal(s, es) && Careful(s, es)
    requires var files := Run(s, es).files; i in files && j in files && floor < j && i < j && files[i].key == files[j].key
    ensures !Run(s, es).files[i].readable
  {
    FreshInv(s, floor);
    RunSingle(s, floor, floor, es);
    assert Unseen(Run(s, es), Run(s, es).files[j].key, j - 1);
  }

  /** With records that fit the read cap, no two files written in a run share a key. */
  lemma KeysDistinct(s: Log, floor: nat, es: seq<Event>, i: nat, j: nat)
    requires Fresh(s, floor) && Legal(s, es) && Careful(s, es)
    requires var files := Run(s, es).files; i in files && j in files && floor < i && floor < j && i != j
    requires forall k | k in Run(s, es).files :: Run(s, es).files[k].readable
    ensures Run(s, es).files[i].key != Run(s, es).files[j].key
  {
    if Run(s, es).files[i].key == Run(s, es).files[j].key {
      OneFilePerKey(s, floor, es, if i < j then i else j, if i < j then j else i);
    }
  }

  /** No step replaces a file. */
  lemma {:induction false} NeverOverwritten(s: Log, es: seq<Event>, i: nat)
    requires Legal(s, es) && i in s.files
    ensures i in Run(s, es).files && Run(s, es).files[i] == s.files[i]
    decreases |es|
  {
    if es != [] {
      NeverOverwritten(Apply(s, es[0]), es[1..], i);
    }
  }

  /** Producers get distinct sequence numbers, each holding exactly the record its producer brought. */
  lemma SequencesDistinct(s: Log, floor: nat, es: seq<Event>, p: nat, q: nat)
    requires Fresh(s, floor) && Legal(s, es) && p != q
    requires var ps := Run(s, es).producers; p in ps && q in ps && ps[p].stage.Published? && ps[q].stage.Published?
    ensures var end := Run(s, es); var x := end.producers[p];
      x.stage.at != end.producers[q].stage.at && x.stage.at in end.files &&
      end.files[x.stage.at] == Entry(x.key, x.readable, p)
  {
    FreshInv(s, floor);
    var top := RunInv(s, floor, floor, es);
    assert Placed(Run(s, es), floor, top, p) && Placed(Run(s, es), floor, top, q);
  }

  /** A producer told "duplicate" was told the truth: a readable file carries its key. */
  lemma DuplicateIsTrue(s: Log, floor: nat, es: seq<Event>, p: nat)
    requires Fresh(s, floor) && Legal(s, es) && p in Run(s, es).producers && Run(s, es).producers[p].stage.Duplicate?
    ensures Carried(Run(s, es), Run(s, es).producers[p].key)
  {
    FreshInv(s, floor);
    var top := RunInv(s, floor, floor, es);
    assert Placed(Run(s, es), floor, top, p);
  }

  // ---------------------------------------------------------------- runs that repeat a key

  const EMPTY: Log := Log(map[], {}, 0, map[])

  lemma {:induction false} Extend(s: Log, es: seq<Event>, e: Event)
    requires Legal(s, es) && Enabled(Run(s, es), e)
    ensures Legal(s, es + [e]) && Run(s, es + [e]) == Apply(Run(s, es), e)
    ensures Careful(s, es) && !Misses(Run(s, es), e) ==> Careful(s, es + [e])
    decreases |es|
  {
    if es == [] {
      assert (es + [e])[1..] == [];
    } else {
      Extend(Apply(s, es[0]), es[1..], e);
      assert (es + [e])[1..] == es[1..] + [e];
    }
  }

  /** One producer from start to link: it lists the whole directory, in which no readable file has its key. */
  function Writes(p: nat, k: Key, r: bool, seen: set<nat>, top: nat): seq<Event> {
    [Start(p, k, r)] + [Open(p)] + [Scan(p, seen, top)] + [Link(p)]
  }

  lemma WriteOn(s0: Log, es: seq<Event>, p: nat, k: Key, r: bool, top: nat) returns (more: seq<Event>)
    requires Legal(s0, es)
    requires var s := Run(s0, es);
      p !in s.producers && IsHighest(s.files.Keys, s.base, top) && top + 1 !in s.files && !Carried(s, k)
    ensures more == es + Writes(p, k, r, Run(s0, es).files.Keys, top) && Legal(s0, more)
    ensures var s := Run(s0, es);
      Run(s0, more) == s.(files := s.files[top + 1 := Entry(k, r, p)],
                          producers := s.producers[p := Producer(k, r, Published(top + 1))])
    ensures Careful(s0, es) ==> Careful(s0, more)
  {
    var s := Run(s0, es);
    Extend(s0, es, Start(p, k, r));
    more := es + [Start(p, k, r)];
    Extend(s0, more, Open(p));
    more := more + [Open(p)];
    assert !Shown(s, s.files.Keys, k);
    Extend(s0, more, Scan(p, s.files.Keys, top));
    more := more + [Scan(p, s.files.Keys, top)];
    Extend(s0, more, Link(p));
    more := more + [Link(p)];
  }

  /** A record over the read cap is published twice under one key, although every listing shows everything. */
  lemma OversizedRepeats(k: Key) returns (es: seq<Event>)
    ensures es == Writes(0, k, false, {}, 0) + Writes(1, k, false, {1}, 1) && Fresh(EMPTY, 0) && Legal(EMPTY, es) && Careful(EMPTY, es)
    ensures Run(EMPTY, es).files == map[1 := Entry(k, false, 0), 2 := Entry(k, false, 1)]
  {
    assert Run(EMPTY, []) == EMPTY && EMPTY.files.Keys == {};
    es := WriteOn(EMPTY, [], 0, k, false, 0);
    assert es == Writes(0, k, false, {}, 0) && Run(EMPTY, es).files == map[1 := Entry(k, false, 0)];
    assert Run(EMPTY, es).files.Keys == {1};
    es := WriteOn(EMPTY, es, 1, k, false, 1);
  }

  /** Producer 2 opens the directory, two files are linked, and its listing shows only the later one. */
  function Gapped(k: Key, other: Key): seq<Event> {
    [Start(2, k, true)] + [Open(2)] + Writes(0, k, true, {}, 0) + Writes(1, other, true, {1}, 1) + [Scan(2, {2}, 2)] + [Link(2)]
  }

  lemma Opened(k: Key)
    ensures var es := [Start(2, k, true)] + [Open(2)];
      Legal(EMPTY, es) && Run(EMPTY, es) == EMPTY.(producers := map[2 := Producer(k, true, Listing({}))])
  {
    Extend(EMPTY, [], Start(2, k, true));
    assert [] + [Start(2, k, true)] == [Start(2, k, true)] && EMPTY.files.Keys == {};
    Extend(EMPTY, [Start(2, k, true)], Open(2));
  }

  /** Two producers publish at sequences 1 and 2 while the third lists. */
  lemma Meanwhile(es: seq<Event>, k: Key, other: Key) returns (more: seq<Event>)
    requires k != other && Legal(EMPTY, es)
    requires Run(EMPTY, es) == EMPTY.(producers := map[2 := Producer(k, true, Listing({}))])
    ensures more == es + Writes(0, k, true, {}, 0) + Writes(1, other, true, {1}, 1) && Legal(EMPTY, more)
    ensures var s := Run(EMPTY, more);
      s.files == map[1 := Entry(k, true, 0), 2 := Entry(other, true, 1)] && s.foreign == {} && s.base == 0 &&
      2 in s.producers && s.producers[2] == Producer(k, true, Listing({}))
  {
    assert Run(EMPTY, es).files.Keys == {};
    more := WriteOn(EMPTY, es, 0, k, true, 0);
    assert Run(EMPTY, more).files == map[1 := Entry(k, true, 0)];
    assert Run(EMPTY, more).files.Keys == {1};
    more := WriteOn(EMPTY, more, 1, other, true, 1);
  }

  lemma MissThenLink(es: seq<Event>, k: Key, other: Key)
    requires k != other && Legal(EMPTY, es)
    requires var s := Run(EMPTY, es);
      s.files == map[1 := Entry(k, true, 0), 2 := Entry(other, true, 1)] && s.foreign == {} && s.base == 0 &&
      2 in s.producers && s.producers[2] == Producer(k, true, Listing({}))
    ensures Misses(Run(EMPTY, es), Scan(2, {2}, 2))
    ensures Legal(EMPTY, es + [Scan(2, {2}, 2)] + [Link(2)])
    ensures Run(EMPTY, es + [Scan(2, {2}, 2)] + [Link(2)]).files == map[1 := Entry(k, true, 0), 2 := Entry(other, true, 1), 3 := Entry(k, true, 2)]
  {
    assert Holds(Run(EMPTY, es).files[1], k);
    Extend(EMPTY, es, Scan(2, {2}, 2));
    Extend(EMPTY, es + [Scan(2, {2}, 2)], Link(2));
  }

  /** Its record is then published although a readable file has its key. */
  lemma GapRepeats(k: Key, other: Key) returns (es: seq<Event>)
    requires k != other
    ensures es == Gapped(k, other) && Legal(EMPTY, es)
    ensures Run(EMPTY, es).files == map[1 := Entry(k, true, 0), 2 := Entry(other, true, 1), 3 := Entry(k, true, 2)]
  {
    Opened(k);
    es := Meanwhile([Start(2, k, true)] + [Open(2)], k, other);
    MissThenLink(es, k, other);
    es := es + [Scan(2, {2}, 2)] + [Link(2)];
  }
}
