/**
 * Token buckets: the assistant's per-identity write limiter, which forgets idle
 * identities, and the hub's publish budget per node. Times are in seconds.
 */
module TokenBucket {
  datatype Bucket = Bucket(tokens: real, at: real)

  /** Capacity, and the tokens the clock has earned by a time: a refill is a difference of two readings. */
  datatype Rate = Rate(burst: real, earned: real -> real)

  datatype Call = Call(id: string, now: real)

  const IDLE_HORIZON: real := 600.0
  const PRUNE_ABOVE: nat := 1024

  /** A steady rate, in tokens per second. */
  function Steady(burst: real, perSec: real): Rate {
    Rate(burst, t => t * perSec)
  }

  ghost predicate ValidRate(r: Rate) {
    r.burst >= 0.0 && forall a: real, b: real | a <= b :: r.earned(a) <= r.earned(b)
  }

  predicate ValidBucket(r: Rate, b: Bucket) { 0.0 <= b.tokens <= r.burst }

  function Min(a: real, b: real): real { if a <= b then a else b }

  // ---------------------------------------------------------------- one bucket

  function Refilled(r: Rate, b: Bucket, now: real): Bucket {
    if now > b.at then Bucket(Min(r.burst, b.tokens + (r.earned(now) - r.earned(b.at))), now) else b
  }

  predicate Admits(r: Rate, b: Bucket, now: real) { Refilled(r, b, now).tokens >= 1.0 }

  function Spent(r: Rate, b: Bucket, now: real): Bucket {
    var full := Refilled(r, b, now);
    if full.tokens < 1.0 then full else full.(tokens := full.tokens - 1.0)
  }

  // ---------------------------------------------------------------- the limiter

  type Buckets = map<string, Bucket>

  predicate Idle(b: Bucket, now: real) { now - b.at > IDLE_HORIZON }

  function Kept(s: Buckets, now: real): Buckets {
    map id | id in s && !Idle(s[id], now) :: s[id]
  }

  function Pruned(s: Buckets, now: real): Buckets {
    if |s| > PRUNE_ABOVE then Kept(s, now) else s
  }

  function At(r: Rate, s: Buckets, c: Call): Bucket {
    if c.id in s then s[c.id] else Bucket(r.burst, c.now)
  }

  /** A call without the prune. */
  function Called(r: Rate, s: Buckets, c: Call): Buckets {
    s[c.id := Spent(r, At(r, s, c), c.now)]
  }

  predicate Answer(r: Rate, s: Buckets, c: Call) { Admits(r, At(r, s, c), c.now) }

  function PlainAnswers(r: Rate, s: Buckets, cs: seq<Call>): seq<bool>
    decreases |cs|
  {
    if cs == [] then [] else [Answer(r, s, cs[0])] + PlainAnswers(r, Called(r, s, cs[0]), cs[1..])
  }

  function Answers(r: Rate, s: Buckets, cs: seq<Call>): seq<bool>
    decreases |cs|
  {
    if cs == [] then []
    else
      var p := Pruned(s, cs[0].now);
      [Answer(r, p, cs[0])] + Answers(r, Called(r, p, cs[0]), cs[1..])
  }

  /** The clock does not go back, and starts no earlier than `from`. */
  predicate Ordered(cs: seq<Call>, from: real) {
    cs == [] || (from <= cs[0].now && Ordered(cs[1..], cs[0].now))
  }

  // ---------------------------------------------------------------- forgetting idle identities

  /** Ten idle minutes always refill the bucket. */
  ghost predicate RefillsWhenIdle(r: Rate) {
    forall b: Bucket, now: real | ValidBucket(r, b) && Idle(b, now) :: Refilled(r, b, now).tokens == r.burst
  }

  /** The limiter and the one that never forgets: they differ only in identities idle for more than ten minutes. */
  ghost predicate Forgets(r: Rate, s: Buckets, all: Buckets, now: real) {
    Valid(r, all, now) &&
    (forall id | id in s :: id in all && s[id] == all[id]) &&
    (forall id | id in all && id !in s :: Idle(all[id], now))
  }

  predicate Valid(r: Rate, s: Buckets, now: real) {
    forall id | id in s :: ValidBucket(r, s[id]) && s[id].at <= now
  }

  lemma PruneForgets(r: Rate, s: Buckets, all: Buckets, before: real, now: real)
    requires Forgets(r, s, all, before) && before <= now
    ensures Forgets(r, Pruned(s, now), all, now)
  {
  }

  lemma SpentValid(r: Rate, b: Bucket, now: real)
    requires ValidRate(r) && ValidBucket(r, b) && b.at <= now
    ensures ValidBucket(r, Spent(r, b, now)) && Spent(r, b, now).at == now
  {
    assert r.earned(b.at) <= r.earned(now);
  }

  lemma CallAgrees(r: Rate, s: Buckets, all: Buckets, c: Call)
    requires ValidRate(r) && RefillsWhenIdle(r) && Forgets(r, s, all, c.now)
    ensures Answer(r, s, c) == Answer(r, all, c) && Forgets(r, Called(r, s, c), Called(r, all, c), c.now)
  {
    SpentValid(r, At(r, all, c), c.now);
    if c.id in all && c.id !in s {
      assert Idle(all[c.id], c.now) && ValidBucket(r, all[c.id]);
      assert Refilled(r, all[c.id], c.now) == Bucket(r.burst, c.now);
      assert Refilled(r, At(r, s, c), c.now) == Bucket(r.burst, c.now);
    }
  }

  /** Forgetting idle identities changes no answer, for any calls of any identities on a clock that never goes back. */
  lemma {:induction false} PruningInvisible(r: Rate, s: Buckets, all: Buckets, cs: seq<Call>, from: real)
    requires ValidRate(r) && RefillsWhenIdle(r) && Forgets(r, s, all, from) && Ordered(cs, from)
    ensures Answers(r, s, cs) == PlainAnswers(r, all, cs)
    decreases |cs|
  {
    if cs != [] {
      var c := cs[0];
      var p := Pruned(s, c.now);
      PruneForgets(r, s, all, from, c.now);
      CallAgrees(r, p, all, c);
      PruningInvisible(r, Called(r, p, c), Called(r, all, c), cs[1..], c.now);
    }
  }

  // ---------------------------------------------------------------- how much gets through

  /** Calls of one identity that were admitted. */
  function Admitted(cs: seq<Call>, answers: seq<bool>, id: string): nat
    requires |cs| == |answers|
  {
    if cs == [] then 0 else (if cs[0].id == id && answers[0] then 1 else 0) + Admitted(cs[1..], answers[1..], id)
  }

  lemma {:induction false} PlainLength(r: Rate, s: Buckets, cs: seq<Call>)
    ensures |PlainAnswers(r, s, cs)| == |cs|
    decreases |cs|
  {
    if cs != [] { PlainLength(r, Called(r, s, cs[0]), cs[1..]); }
  }

  /** What an identity could spend at this moment. */
  function Credit(r: Rate, s: Buckets, id: string, now: real): real {
    Refilled(r, At(r, s, Call(id, now)), now).tokens
  }

  lemma CreditGrows(r: Rate, s: Buckets, id: string, now: real, later: real)
    requires ValidRate(r) && Valid(r, s, now) && now <= later
    ensures 0.0 <= Credit(r, s, id, later) <= r.burst
    ensures Credit(r, s, id, later) <= Credit(r, s, id, now) + (r.earned(later) - r.earned(now))
  {
    assert r.earned(now) <= r.earned(later);
    if id in s {
      assert r.earned(s[id].at) <= r.earned(now);
    }
  }

  lemma CallCredit(r: Rate, s: Buckets, c: Call, id: string)
    requires ValidRate(r) && Valid(r, s, c.now)
    ensures Valid(r, Called(r, s, c), c.now)
    ensures Credit(r, Called(r, s, c), id, c.now) ==
            Credit(r, s, id, c.now) - (if c.id == id && Answer(r, s, c) then 1.0 else 0.0)
  {
    SpentValid(r, At(r, s, c), c.now);
  }

  lemma AdmittedStep(r: Rate, s: Buckets, cs: seq<Call>, id: string)
    requires cs != [] && |PlainAnswers(r, s, cs)| == |cs|
    ensures |PlainAnswers(r, Called(r, s, cs[0]), cs[1..])| == |cs| - 1
    ensures Admitted(cs, PlainAnswers(r, s, cs), id) ==
      (if cs[0].id == id && Answer(r, s, cs[0]) then 1 else 0) +
      Admitted(cs[1..], PlainAnswers(r, Called(r, s, cs[0]), cs[1..]), id)
  {
    assert PlainAnswers(r, s, cs)[1..] == PlainAnswers(r, Called(r, s, cs[0]), cs[1..]);
  }

  /** From any state on, an identity gets at most its credit now plus what the time until the last call earns. */
  lemma {:induction false} AdmittedWithin(r: Rate, s: Buckets, cs: seq<Call>, id: string, from: real, end: real)
    requires ValidRate(r) && Valid(r, s, from) && Ordered(cs, from) && from <= end
    requires cs != [] ==> cs[|cs| - 1].now <= end
    ensures |PlainAnswers(r, s, cs)| == |cs|
    ensures Admitted(cs, PlainAnswers(r, s, cs), id) as real <= Credit(r, s, id, from) + (r.earned(end) - r.earned(from))
    decreases |cs|
  {
    PlainLength(r, s, cs);
    if cs == [] {
      CreditGrows(r, s, id, from, from);
      assert r.earned(from) <= r.earned(end);
    } else {
      var c := cs[0];
      LastLatest(cs, from);
      CreditGrows(r, s, id, from, c.now);
      CallCredit(r, s, c, id);
      AdmittedWithin(r, Called(r, s, c), cs[1..], id, c.now, end);
      AdmittedStep(r, s, cs, id);
    }
  }

  lemma {:induction false} LastLatest(cs: seq<Call>, from: real)
    requires cs != [] && Ordered(cs, from)
    ensures from <= cs[0].now <= cs[|cs| - 1].now && Ordered(cs, cs[0].now)
  {
    if |cs| > 1 { LastLatest(cs[1..], cs[0].now); }
  }

  lemma PlainWindow(r: Rate, all: Buckets, cs: seq<Call>, id: string, from: real)
    requires ValidRate(r) && Valid(r, all, from) && cs != [] && Ordered(cs, from)
    ensures |PlainAnswers(r, all, cs)| == |cs|
    ensures Admitted(cs, PlainAnswers(r, all, cs), id) as real <=
            r.burst + (r.earned(cs[|cs| - 1].now) - r.earned(cs[0].now))
  {
    LastLatest(cs, from);
    assert Valid(r, all, cs[0].now);
    CreditGrows(r, all, id, cs[0].now, cs[0].now);
    AdmittedWithin(r, all, cs, id, cs[0].now, cs[|cs| - 1].now);
  }

  /** In any window of calls, one identity is admitted at most the burst plus what the window earns, pruning included. */
  lemma WindowBound(r: Rate, s: Buckets, all: Buckets, cs: seq<Call>, id: string, from: real)
    requires ValidRate(r) && RefillsWhenIdle(r) && Forgets(r, s, all, from) && cs != [] && Ordered(cs, from)
    ensures |Answers(r, s, cs)| == |cs|
    ensures Admitted(cs, Answers(r, s, cs), id) as real <= r.burst + (r.earned(cs[|cs| - 1].now) - r.earned(cs[0].now))
  {
    PruningInvisible(r, s, all, cs, from);
    PlainWindow(r, all, cs, id, from);
  }

  // ---------------------------------------------------------------- and nothing is refused needlessly

  /** The bucket of an identity after calls at these times, from its first one on. */
  function BucketAfter(r: Rate, ts: seq<real>): Bucket
    requires ts != []
  {
    var now := ts[|ts| - 1];
    Spent(r, if |ts| == 1 then Bucket(r.burst, now) else BucketAfter(r, ts[..|ts| - 1]), now)
  }

  /** What the identity could spend at a later time. */
  function CreditAfter(r: Rate, ts: seq<real>, now: real): real {
    if ts == [] then r.burst else Refilled(r, BucketAfter(r, ts), now).tokens
  }

  /** How many of the calls from index i on were admitted. */
  function AdmittedFrom(r: Rate, ts: seq<real>, i: nat): nat {
    if i >= |ts| then 0
    else AdmittedFrom(r, ts[..|ts| - 1], i) + (if CreditAfter(r, ts[..|ts| - 1], ts[|ts| - 1]) >= 1.0 then 1 else 0)
  }

  predicate InOrder(ts: seq<real>, now: real) {
    (forall i, j | 0 <= i <= j < |ts| :: ts[i] <= ts[j]) && (ts != [] ==> ts[|ts| - 1] <= now)
  }

  /** What the window from call i until now leaves of the budget. */
  function Slack(r: Rate, ts: seq<real>, i: nat, now: real): real
    requires i < |ts|
  {
    r.burst + (r.earned(now) - r.earned(ts[i])) - AdmittedFrom(r, ts, i) as real
  }

  /** The credit is the tightest window's slack, or the burst. */
  ghost predicate Tight(r: Rate, ts: seq<real>, now: real) {
    CreditAfter(r, ts, now) <= r.burst &&
    (forall i | 0 <= i < |ts| :: CreditAfter(r, ts, now) <= Slack(r, ts, i, now)) &&
    (CreditAfter(r, ts, now) == r.burst || exists i | 0 <= i < |ts| :: CreditAfter(r, ts, now) == Slack(r, ts, i, now))
  }

  lemma BucketAt(r: Rate, ts: seq<real>)
    requires ts != [] && ValidRate(r) && InOrder(ts, ts[|ts| - 1])
    ensures BucketAfter(r, ts).at == ts[|ts| - 1]
    ensures BucketAfter(r, ts).tokens ==
      CreditAfter(r, ts[..|ts| - 1], ts[|ts| - 1]) - (if CreditAfter(r, ts[..|ts| - 1], ts[|ts| - 1]) >= 1.0 then 1.0 else 0.0)
  {
    if |ts| > 1 { BucketAt(r, ts[..|ts| - 1]); }
  }

  lemma SlackStep(r: Rate, ts: seq<real>, i: nat, now: real)
    requires ts != [] && i < |ts|
    ensures var last := ts[|ts| - 1]; var init := ts[..|ts| - 1]; var paid := if CreditAfter(r, init, last) >= 1.0 then 1.0 else 0.0;
      Slack(r, ts, i, now) ==
      (if i < |ts| - 1 then Slack(r, init, i, last) else r.burst) - paid + (r.earned(now) - r.earned(last))
  {
    assert AdmittedFrom(r, ts[..|ts| - 1], |ts| - 1) == 0;
  }

  lemma {:induction false} CreditIsTight(r: Rate, ts: seq<real>, now: real)
    requires ValidRate(r) && InOrder(ts, now)
    ensures Tight(r, ts, now)
  {
    if ts != [] {
      var last, init := ts[|ts| - 1], ts[..|ts| - 1];
      CreditIsTight(r, init, last);
      BucketAt(r, ts);
      assert r.earned(last) <= r.earned(now);
      forall i | 0 <= i < |ts| ensures CreditAfter(r, ts, now) <= Slack(r, ts, i, now) {
        SlackStep(r, ts, i, now);
      }
      if CreditAfter(r, init, last) == r.burst {
        SlackStep(r, ts, |ts| - 1, now);
      } else {
        var i :| 0 <= i < |init| && CreditAfter(r, init, last) == Slack(r, init, i, last);
        SlackStep(r, ts, i, now);
      }
    }
  }

  /** A call is admitted exactly when no window that ends with it would go over the budget. */
  lemma AdmittedExactly(r: Rate, ts: seq<real>, now: real)
    requires ValidRate(r) && InOrder(ts, now)
    ensures CreditAfter(r, ts, now) >= 1.0 <==>
      r.burst >= 1.0 &&
      forall i | 0 <= i < |ts| :: FitsWindow(r, ts, i, now)
  {
    CreditIsTight(r, ts, now);
    if CreditAfter(r, ts, now) >= 1.0 {
      forall i | 0 <= i < |ts| ensures FitsWindow(r, ts, i, now) {
        assert CreditAfter(r, ts, now) <= Slack(r, ts, i, now);
      }
    } else if CreditAfter(r, ts, now) != r.burst {
      var i :| 0 <= i < |ts| && CreditAfter(r, ts, now) == Slack(r, ts, i, now);
      assert !FitsWindow(r, ts, i, now);
    }
  }

  /** The times at which an identity called. */
  function Times(cs: seq<Call>, id: string): seq<real> {
    if cs == [] then []
    else Times(cs[..|cs| - 1], id) + (if cs[|cs| - 1].id == id then [cs[|cs| - 1].now] else [])
  }

  /** The buckets after these calls. */
  function BucketsAfter(r: Rate, cs: seq<Call>): Buckets {
    if cs == [] then map[] else Called(r, BucketsAfter(r, cs[..|cs| - 1]), cs[|cs| - 1])
  }

  /** The limiter's bucket of an identity is the bucket its own calls alone leave. */
  lemma {:induction false} OwnCallsOnly(r: Rate, cs: seq<Call>, id: string)
    ensures id in BucketsAfter(r, cs) <==> Times(cs, id) != []
    ensures Times(cs, id) != [] ==> BucketsAfter(r, cs)[id] == BucketAfter(r, Times(cs, id))
  {
    if cs != [] {
      var init, c := cs[..|cs| - 1], cs[|cs| - 1];
      OwnCallsOnly(r, init, id);
      var ts := Times(init, id);
      assert (ts + [c.now])[..|ts|] == ts && ts + [] == ts;
    }
  }

  lemma AnswerIsCredit(r: Rate, cs: seq<Call>, c: Call)
    ensures Answer(r, BucketsAfter(r, cs), c) <==> CreditAfter(r, Times(cs, c.id), c.now) >= 1.0
  {
    OwnCallsOnly(r, cs, c.id);
  }

  lemma {:induction false} OrderedAt(cs: seq<Call>, from: real, i: nat, j: nat)
    requires Ordered(cs, from) && i <= j < |cs|
    ensures from <= cs[i].now <= cs[j].now
    decreases |cs|
  {
    if j > 0 {
      OrderedAt(cs[1..], cs[0].now, if i > 0 then i - 1 else 0, j - 1);
    }
  }

  lemma {:induction false} TimesInOrder(cs: seq<Call>, id: string, now: real)
    requires (forall i, j | 0 <= i <= j < |cs| :: cs[i].now <= cs[j].now) && (cs != [] ==> cs[|cs| - 1].now <= now)
    ensures InOrder(Times(cs, id), now)
  {
    if cs != [] {
      var init := cs[..|cs| - 1];
      TimesInOrder(init, id, cs[|cs| - 1].now);
    }
  }

  lemma OneMore(r: Rate, cs: seq<Call>, c: Call)
    ensures BucketsAfter(r, cs + [c]) == Called(r, BucketsAfter(r, cs), c)
  {
    assert (cs + [c])[..|cs|] == cs;
  }

  lemma LaterAnswer(r: Rate, s: Buckets, more: seq<Call>, k: nat)
    requires 0 < k < |more|
    ensures |PlainAnswers(r, s, more)| == |more| && |PlainAnswers(r, Called(r, s, more[0]), more[1..])| == |more| - 1
    ensures PlainAnswers(r, s, more)[k] == PlainAnswers(r, Called(r, s, more[0]), more[1..])[k - 1]
  {
    PlainLength(r, s, more);
    PlainLength(r, Called(r, s, more[0]), more[1..]);
  }

  lemma {:induction false} AnswersFrom(r: Rate, cs: seq<Call>, more: seq<Call>, k: nat)
    requires k < |more|
    ensures |PlainAnswers(r, BucketsAfter(r, cs), more)| == |more|
    ensures PlainAnswers(r, BucketsAfter(r, cs), more)[k] == Answer(r, BucketsAfter(r, cs + more[..k]), more[k])
    decreases |more|
  {
    PlainLength(r, BucketsAfter(r, cs), more);
    if k == 0 {
      assert cs + more[..0] == cs;
    } else {
      OneMore(r, cs, more[0]);
      LaterAnswer(r, BucketsAfter(r, cs), more, k);
      AnswersFrom(r, cs + [more[0]], more[1..], k - 1);
      Regroup(cs, more, k);
    }
  }

  lemma Regroup(cs: seq<Call>, more: seq<Call>, k: nat)
    requires 0 < k < |more|
    ensures cs + [more[0]] + more[1..][..k - 1] == cs + more[..k] && more[1..][k - 1] == more[k]
  {
  }

  lemma BeforeInOrder(cs: seq<Call>, k: nat, from: real, id: string)
    requires Ordered(cs, from) && k < |cs|
    ensures InOrder(Times(cs[..k], id), cs[k].now)
  {
    var before := cs[..k];
    forall i, j | 0 <= i <= j < k ensures before[i].now <= before[j].now <= cs[k].now {
      OrderedAt(cs, from, i, j);
      OrderedAt(cs, from, j, k);
    }
    TimesInOrder(before, id, cs[k].now);
  }

  /** The limiter, pruning included, admits call k exactly when no window of that identity's calls ending with it goes over the budget. */
  lemma LimiterAdmitsExactly(r: Rate, cs: seq<Call>, k: nat, from: real)
    requires ValidRate(r) && RefillsWhenIdle(r) && Ordered(cs, from) && k < |cs|
    ensures |Answers(r, map[], cs)| == |cs|
    ensures var ts := Times(cs[..k], cs[k].id);
      Answers(r, map[], cs)[k] <==> r.burst >= 1.0 && forall i | 0 <= i < |ts| :: FitsWindow(r, ts, i, cs[k].now)
  {
    var c, before := cs[k], cs[..k];
    PruningInvisible(r, map[], map[], cs, from);
    AnswersFrom(r, [], cs, k);
    assert [] + before == before;
    AnswerIsCredit(r, before, c);
    BeforeInOrder(cs, k, from, c.id);
    AdmittedExactly(r, Times(before, c.id), c.now);
  }

  /** One more call now keeps the window from call i within burst plus what it earned. */
  predicate FitsWindow(r: Rate, ts: seq<real>, i: nat, now: real)
    requires i < |ts|
  {
    AdmittedFrom(r, ts, i) as real + 1.0 <= r.burst + (r.earned(now) - r.earned(ts[i]))
  }

  // ---------------------------------------------------------------- steady rates

  lemma Mul(a: real, b: real, c: real)
    requires a >= b && c >= 0.0
    ensures a * c >= b * c
  {
  }

  lemma SteadyValid(burst: real, perSec: real)
    requires burst >= 0.0 && perSec >= 0.0
    ensures ValidRate(Steady(burst, perSec))
  {
    var r := Steady(burst, perSec);
    forall a: real, b: real | a <= b ensures r.earned(a) <= r.earned(b) {
      Mul(b, a, perSec);
    }
  }

  /** An idle bucket is full whatever was in it exactly when ten minutes of refill reach the burst. */
  lemma IdleIsFull(burst: real, perSec: real)
    requires burst >= 0.0 && perSec >= 0.0
    ensures RefillsWhenIdle(Steady(burst, perSec)) <==> burst <= IDLE_HORIZON * perSec
  {
    var r := Steady(burst, perSec);
    if burst <= IDLE_HORIZON * perSec {
      forall b: Bucket, now: real | ValidBucket(r, b) && Idle(b, now) ensures Refilled(r, b, now).tokens == burst {
        Mul(now - b.at, IDLE_HORIZON, perSec);
        assert now * perSec - b.at * perSec == (now - b.at) * perSec;
      }
    } else {
      IdleNotFull(burst, perSec);
    }
  }

  lemma IdleNotFull(burst: real, perSec: real)
    requires perSec >= 0.0 && burst > IDLE_HORIZON * perSec
    ensures !RefillsWhenIdle(Steady(burst, perSec))
  {
    var b := Bucket(0.0, 0.0);
    var now := ShortTime(burst, perSec);
    assert ValidBucket(Steady(burst, perSec), b) && Idle(b, now) && Refilled(Steady(burst, perSec), b, now).tokens < burst;
  }

  // ---------------------------------------------------------------- when forgetting shows

  function Repeat(id: string, now: real, n: nat): (cs: seq<Call>)
    ensures |cs| == n
  {
    if n == 0 then [] else [Call(id, now)] + Repeat(id, now, n - 1)
  }

  /** Of n calls at one moment the last is admitted exactly when the credit reaches n. */
  lemma {:induction false} PlainRepeat(r: Rate, s: Buckets, id: string, now: real, n: nat)
    requires ValidRate(r) && Valid(r, s, now) && n >= 1
    ensures |PlainAnswers(r, s, Repeat(id, now, n))| == n
    ensures PlainAnswers(r, s, Repeat(id, now, n))[n - 1] <==> Credit(r, s, id, now) >= n as real
    decreases n
  {
    var c := Call(id, now);
    PlainLength(r, s, Repeat(id, now, n));
    CallCredit(r, s, c, id);
    assert Repeat(id, now, n)[1..] == Repeat(id, now, n - 1);
    if n > 1 { PlainRepeat(r, Called(r, s, c), id, now, n - 1); }
  }

  lemma PruneKeeps(r: Rate, s: Buckets, id: string, now: real)
    requires Valid(r, s, now) && !(id in s && Idle(s[id], now))
    ensures Valid(r, Pruned(s, now), now) && Credit(r, Pruned(s, now), id, now) == Credit(r, s, id, now)
  {
  }

  lemma {:induction false} PrunedRepeat(r: Rate, s: Buckets, id: string, now: real, n: nat)
    requires ValidRate(r) && Valid(r, s, now) && n >= 1 && !(id in s && Idle(s[id], now))
    ensures |Answers(r, s, Repeat(id, now, n))| == n
    ensures Answers(r, s, Repeat(id, now, n))[n - 1] <==> Credit(r, s, id, now) >= n as real
    decreases n
  {
    var c := Call(id, now);
    var p := Pruned(s, now);
    PruneKeeps(r, s, id, now);
    CallCredit(r, p, c, id);
    SpentValid(r, At(r, p, c), now);
    assert Repeat(id, now, n)[1..] == Repeat(id, now, n - 1);
    if n > 1 { PrunedRepeat(r, Called(r, p, c), id, now, n - 1); }
  }

  /** A full limiter that holds an idle bucket short of the burst answers differently once it forgets it. */
  lemma ForgettingShows(r: Rate, s: Buckets, id: string, now: real, n: nat)
    requires ValidRate(r) && n >= 1 && r.burst == n as real && Valid(r, s, now) && |s| > PRUNE_ABOVE
    requires id in s && Idle(s[id], now) && Refilled(r, s[id], now).tokens < r.burst
    ensures Answers(r, s, Repeat(id, now, n)) != PlainAnswers(r, s, Repeat(id, now, n))
  {
    var p := Pruned(s, now);
    assert id !in p && Pruned(p, now) == p;
    PlainRepeat(r, s, id, now, n);
    PrunedRepeat(r, p, id, now, n);
    assert Answers(r, s, Repeat(id, now, n)) == Answers(r, p, Repeat(id, now, n));
  }

  function Letters(n: nat): (s: string)
    ensures |s| == n
  {
    if n == 0 then [] else Letters(n - 1) + ['a']
  }

  /** Forgetting changes no answer to any calls from any state. */
  ghost predicate ForgetsUnseen(r: Rate) {
    forall s: Buckets, cs: seq<Call>, from: real | Valid(r, s, from) && Ordered(cs, from) ::
      Answers(r, s, cs) == PlainAnswers(r, s, cs)
  }

  /** The clock does not go back from the first call on. */
  predicate InTime(cs: seq<Call>) { cs == [] || Ordered(cs, cs[0].now) }

  /** Forgetting changes no answer in any run of the limiter. */
  ghost predicate RunsUnseen(r: Rate) {
    forall cs: seq<Call> | InTime(cs) :: Answers(r, map[], cs) == PlainAnswers(r, map[], cs)
  }

  lemma {:induction false} SameTime(id: string, now: real, n: nat)
    ensures Ordered(Repeat(id, now, n), now)
  {
    if n > 0 {
      SameTime(id, now, n - 1);
      assert Repeat(id, now, n)[1..] == Repeat(id, now, n - 1);
    }
  }

  lemma SteadyEarned(burst: real, perSec: real, a: real, b: real)
    ensures Steady(burst, perSec).earned(b) - Steady(burst, perSec).earned(a) == perSec * (b - a)
  {
  }

  lemma FreshWindow(r: Rate, cs: seq<Call>, id: string, from: real, gain: real)
    requires ValidRate(r) && RefillsWhenIdle(r) && cs != [] && Ordered(cs, from)
    requires r.earned(cs[|cs| - 1].now) - r.earned(cs[0].now) == gain
    ensures |Answers(r, map[], cs)| == |cs| && Admitted(cs, Answers(r, map[], cs), id) as real <= r.burst + gain
  {
    WindowBound(r, map[], map[], cs, id, from);
  }

  predicate Within(cs: seq<Call>, answers: seq<bool>, id: string, budget: real) {
    |answers| == |cs| && Admitted(cs, answers, id) as real <= budget
  }

  ghost predicate WithinBudget(burst: real, perSec: real, cs: seq<Call>, id: string)
    requires cs != []
  {
    Within(cs, Answers(Steady(burst, perSec), map[], cs), id, burst + perSec * (cs[|cs| - 1].now - cs[0].now))
  }

  /** Writes of one identity admitted in a window: at most burst + rate * time, when ten idle minutes refill the burst. */
  lemma WritesWithin(burst: real, perSec: real, cs: seq<Call>, id: string, from: real)
    requires perSec >= 0.0 && 0.0 <= burst <= IDLE_HORIZON * perSec && cs != [] && Ordered(cs, from)
    ensures WithinBudget(burst, perSec, cs, id)
  {
    SteadyReady(burst, perSec);
    SteadyEarned(burst, perSec, cs[0].now, cs[|cs| - 1].now);
    FreshWindow(Steady(burst, perSec), cs, id, from, perSec * (cs[|cs| - 1].now - cs[0].now));
  }

  lemma SteadyReady(burst: real, perSec: real)
    requires perSec >= 0.0 && 0.0 <= burst <= IDLE_HORIZON * perSec
    ensures ValidRate(Steady(burst, perSec)) && RefillsWhenIdle(Steady(burst, perSec))
  {
    SteadyValid(burst, perSec);
    IdleIsFull(burst, perSec);
  }

  // ---------------------------------------------------------------- the budget, and the run that breaks it

  /** Every run of the limiter keeps every identity within its budget. */
  ghost predicate AlwaysWithin(burst: real, perSec: real) {
    forall cs: seq<Call>, id: string | cs != [] && InTime(cs) :: WithinBudget(burst, perSec, cs, id)
  }

  /** The limiter's buckets after these calls. */
  function LimiterAfter(r: Rate, s: Buckets, cs: seq<Call>): Buckets
    decreases |cs|
  {
    if cs == [] then s else LimiterAfter(r, Called(r, Pruned(s, cs[0].now), cs[0]), cs[1..])
  }

  lemma {:induction false} AfterJoined(r: Rate, s: Buckets, a: seq<Call>, b: seq<Call>)
    ensures LimiterAfter(r, s, a + b) == LimiterAfter(r, LimiterAfter(r, s, a), b)
    decreases |a|
  {
    if a == [] {
      assert a + b == b;
    } else {
      assert (a + b)[1..] == a[1..] + b;
      AfterJoined(r, Called(r, Pruned(s, a[0].now), a[0]), a[1..], b);
    }
  }

  lemma Regrouped(x: bool, y: seq<bool>, z: seq<bool>)
    ensures [x] + (y + z) == ([x] + y) + z
  {
  }

  lemma {:induction false} AnswersJoined(r: Rate, s: Buckets, a: seq<Call>, b: seq<Call>)
    ensures |Answers(r, s, a)| == |a|
    ensures Answers(r, s, a + b) == Answers(r, s, a) + Answers(r, LimiterAfter(r, s, a), b)
    decreases |a|
  {
    if a == [] {
      assert a + b == b && [] + Answers(r, s, b) == Answers(r, s, b);
    } else {
      var p := Pruned(s, a[0].now);
      var t := Called(r, p, a[0]);
      assert (a + b)[1..] == a[1..] + b;
      AnswersJoined(r, t, a[1..], b);
      Regrouped(Answer(r, p, a[0]), Answers(r, t, a[1..]), Answers(r, LimiterAfter(r, t, a[1..]), b));
    }
  }

  lemma {:induction false} AdmittedJoined(a: seq<Call>, x: seq<bool>, b: seq<Call>, y: seq<bool>, id: string)
    requires |a| == |x| && |b| == |y|
    ensures Admitted(a + b, x + y, id) == Admitted(a, x, id) + Admitted(b, y, id)
  {
    if a == [] {
      assert a + b == b && x + y == y;
    } else {
      assert (a + b)[1..] == a[1..] + b && (x + y)[1..] == x[1..] + y;
      AdmittedJoined(a[1..], x[1..], b, y, id);
    }
  }

  lemma {:induction false} OrderedJoined(a: seq<Call>, b: seq<Call>, from: real, now: real)
    requires Ordered(a, from) && (a != [] ==> a[|a| - 1].now <= now) && from <= now && Ordered(b, now)
    ensures Ordered(a + b, from)
    decreases |a|
  {
    if a == [] {
      assert a + b == b;
    } else {
      LastLatest(a, from);
      assert (a + b)[1..] == a[1..] + b;
      OrderedJoined(a[1..], b, a[0].now, now);
    }
  }

  /** At one moment an identity gets all the calls its credit pays for. */
  lemma {:induction false} AllAdmitted(r: Rate, s: Buckets, id: string, now: real, k: nat)
    requires ValidRate(r) && Valid(r, s, now) && !(id in s && Idle(s[id], now)) && Credit(r, s, id, now) >= k as real
    ensures |Answers(r, s, Repeat(id, now, k))| == k
    ensures Admitted(Repeat(id, now, k), Answers(r, s, Repeat(id, now, k)), id) == k
    decreases k
  {
    if k > 0 {
      var c, p := Call(id, now), Pruned(s, now);
      PruneKeeps(r, s, id, now);
      CallCredit(r, p, c, id);
      SpentValid(r, At(r, p, c), now);
      assert Repeat(id, now, k)[1..] == Repeat(id, now, k - 1);
      AllAdmitted(r, Called(r, p, c), id, now, k - 1);
      var answers := Answers(r, s, Repeat(id, now, k));
      assert answers[0] && answers[1..] == Answers(r, Called(r, p, c), Repeat(id, now, k - 1));
    }
  }

  /** m identities, none with a name longer than k, whose buckets were all used at this moment. */
  predicate Gathered(r: Rate, s: Buckets, now: real, k: nat, m: nat) {
    |s| == m && forall id | id in s :: |id| <= k && s[id].at == now && ValidBucket(r, s[id])
  }

  lemma NothingToPrune(r: Rate, s: Buckets, now: real, k: nat, m: nat)
    requires Gathered(r, s, now, k, m)
    ensures Pruned(s, now) == s
  {
  }

  lemma CalledGathers(r: Rate, s: Buckets, now: real, k: nat, m: nat, c: Call)
    requires ValidRate(r) && Gathered(r, s, now, k, m) && c.now == now && |c.id| <= k
    ensures Gathered(r, Called(r, s, c), now, k, if c.id in s then m else m + 1)
  {
    SpentValid(r, At(r, s, c), now);
    if c.id in s { assert Called(r, s, c).Keys == s.Keys; } else { assert Called(r, s, c).Keys == s.Keys + {c.id}; }
    Sizes(s, Called(r, s, c));
  }

  lemma Sizes(s: Buckets, t: Buckets)
    ensures |s| == |s.Keys| && |t| == |t.Keys|
  {
  }

  lemma {:induction false} RepeatGathers(r: Rate, s: Buckets, id: string, now: real, k: nat, n: nat)
    requires ValidRate(r) && Gathered(r, s, now, k, 1) && id in s && |id| <= k
    ensures Gathered(r, LimiterAfter(r, s, Repeat(id, now, n)), now, k, 1)
    decreases n
  {
    if n > 0 {
      NothingToPrune(r, s, now, k, 1);
      CalledGathers(r, s, now, k, 1, Call(id, now));
      assert Repeat(id, now, n)[1..] == Repeat(id, now, n - 1);
      RepeatGathers(r, Called(r, s, Call(id, now)), id, now, k, n - 1);
    }
  }

  /** One call each of k other identities. */
  function Visitors(now: real, k: nat): (cs: seq<Call>)
    ensures |cs| == k
  {
    if k == 0 then [] else Visitors(now, k - 1) + [Call(Letters(k), now)]
  }

  lemma {:induction false} VisitorsGather(r: Rate, s: Buckets, now: real, k: nat)
    requires ValidRate(r) && Gathered(r, s, now, 0, 1)
    ensures Gathered(r, LimiterAfter(r, s, Visitors(now, k)), now, k, k + 1)
    decreases k
  {
    if k > 0 {
      var init, c := Visitors(now, k - 1), Call(Letters(k), now);
      VisitorsGather(r, s, now, k - 1);
      var t := LimiterAfter(r, s, init);
      AfterJoined(r, s, init, [c]);
      NothingToPrune(r, t, now, k - 1, k);
      assert Gathered(r, t, now, k, k);
      CalledGathers(r, t, now, k, k, c);
      assert c.id !in t;
    }
  }

  lemma {:induction false} VisitorsOrdered(now: real, k: nat)
    ensures Ordered(Visitors(now, k), now) && forall i | 0 <= i < k :: Visitors(now, k)[i].now == now
  {
    if k > 0 {
      VisitorsOrdered(now, k - 1);
      OrderedJoined(Visitors(now, k - 1), [Call(Letters(k), now)], now, now);
    }
  }

  /** One identity spends its burst at time 0, 1024 others call, and it calls as often again at a later time. */
  function Breach(n: nat, now: real): seq<Call> {
    Repeat("", 0.0, n) + (Visitors(0.0, PRUNE_ABOVE) + Repeat("", now, n))
  }

  lemma {:induction false} RepeatTimes(id: string, now: real, n: nat)
    ensures forall i | 0 <= i < n :: Repeat(id, now, n)[i] == Call(id, now)
  {
    if n > 0 { RepeatTimes(id, now, n - 1); }
  }

  lemma BreachOrdered(n: nat, now: real)
    requires n >= 1 && now >= 0.0
    ensures Ordered(Breach(n, now), 0.0) && Breach(n, now)[0].now == 0.0 && Breach(n, now)[|Breach(n, now)| - 1].now == now
  {
    var a, b, c := Repeat("", 0.0, n), Visitors(0.0, PRUNE_ABOVE), Repeat("", now, n);
    RepeatTimes("", 0.0, n);
    RepeatTimes("", now, n);
    VisitorsOrdered(0.0, PRUNE_ABOVE);
    SameTime("", 0.0, n);
    SameTime("", now, n);
    OrderedJoined(b, c, 0.0, now);
    OrderedJoined(a, b + c, 0.0, 0.0);
    assert (a + (b + c))[0] == a[0] && (a + (b + c))[n + PRUNE_ABOVE + n - 1] == c[n - 1];
  }

  /** The buckets that await the later calls: one more than the limiter keeps without pruning, all last used at time 0. */
  lemma BeforeBreach(r: Rate, n: nat)
    requires ValidRate(r) && n >= 1 && r.burst == n as real
    ensures Gathered(r, LimiterAfter(r, LimiterAfter(r, map[], Repeat("", 0.0, n)), Visitors(0.0, PRUNE_ABOVE)), 0.0, PRUNE_ABOVE, PRUNE_ABOVE + 1)
  {
    var c := Call("", 0.0);
    var s := Called(r, map[], c);
    assert Gathered(r, map[], 0.0, 0, 0);
    CalledGathers(r, map[], 0.0, 0, 0, c);
    assert Repeat("", 0.0, n)[1..] == Repeat("", 0.0, n - 1);
    RepeatGathers(r, s, "", 0.0, 0, n - 1);
    VisitorsGather(r, LimiterAfter(r, map[], Repeat("", 0.0, n)), 0.0, PRUNE_ABOVE);
  }

  /** Once all of them are idle the next call finds the limiter empty. */
  lemma AllForgotten(r: Rate, s: Buckets, n: nat, now: real)
    requires ValidRate(r) && n >= 1 && r.burst == n as real && now > IDLE_HORIZON
    requires Gathered(r, s, 0.0, PRUNE_ABOVE, PRUNE_ABOVE + 1)
    ensures |Answers(r, s, Repeat("", now, n))| == n && Admitted(Repeat("", now, n), Answers(r, s, Repeat("", now, n)), "") == n
  {
    assert Pruned(s, now) == map[] && Pruned(map[], now) == map[];
    assert Answers(r, s, Repeat("", now, n)) == Answers(r, map[], Repeat("", now, n));
    AllAdmitted(r, map[], "", now, n);
  }

  /** In that run the identity gets its burst twice. */
  lemma BreachAdmits(r: Rate, n: nat, now: real)
    requires ValidRate(r) && n >= 1 && r.burst == n as real && now > IDLE_HORIZON
    ensures |Answers(r, map[], Breach(n, now))| == |Breach(n, now)|
    ensures Admitted(Breach(n, now), Answers(r, map[], Breach(n, now)), "") >= 2 * n
  {
    var a, b, c := Repeat("", 0.0, n), Visitors(0.0, PRUNE_ABOVE), Repeat("", now, n);
    var s := LimiterAfter(r, map[], a);
    var t := LimiterAfter(r, s, b);
    BeforeBreach(r, n);
    AllForgotten(r, t, n, now);
    AllAdmitted(r, map[], "", 0.0, n);
    AnswersJoined(r, map[], a, b + c);
    AnswersJoined(r, s, b, c);
    AdmittedJoined(b, Answers(r, s, b), c, Answers(r, t, c), "");
    AdmittedJoined(a, Answers(r, map[], a), b + c, Answers(r, s, b) + Answers(r, t, c), "");
  }

  /** When ten minutes do not refill the burst, some later time is idle and still short of it. */
  lemma ShortTime(burst: real, perSec: real) returns (now: real)
    requires perSec >= 0.0 && burst > IDLE_HORIZON * perSec
    ensures now > IDLE_HORIZON && now * perSec < burst
  {
    var gap := burst - IDLE_HORIZON * perSec;
    var more := gap / (2.0 * (perSec + gap));
    now := IDLE_HORIZON + more;
    assert more > 0.0;
    assert more * (2.0 * (perSec + gap)) == gap;
    assert more * perSec < gap by {
      if more * perSec >= gap { Mul(2.0 * (perSec + gap), 2.0 * perSec, more); }
    }
    assert now * perSec == IDLE_HORIZON * perSec + more * perSec;
  }

  /** The budget as what the rate's clock earned in the window. */
  ghost predicate WithinRate(r: Rate, cs: seq<Call>, id: string)
    requires cs != []
  {
    Within(cs, Answers(r, map[], cs), id, r.burst + (r.earned(cs[|cs| - 1].now) - r.earned(cs[0].now)))
  }

  lemma RateBroken(r: Rate, cs: seq<Call>, id: string, gain: real)
    requires cs != [] && !WithinRate(r, cs, id) && r.earned(cs[|cs| - 1].now) - r.earned(cs[0].now) == gain
    ensures !Within(cs, Answers(r, map[], cs), id, r.burst + gain)
  {
  }

  lemma NotWithin(burst: real, perSec: real, cs: seq<Call>, id: string)
    requires cs != [] && !WithinRate(Steady(burst, perSec), cs, id)
    ensures !WithinBudget(burst, perSec, cs, id)
  {
    SteadyEarned(burst, perSec, cs[0].now, cs[|cs| - 1].now);
    RateBroken(Steady(burst, perSec), cs, id, perSec * (cs[|cs| - 1].now - cs[0].now));
  }

  lemma BreachTooMany(r: Rate, n: nat, now: real)
    requires ValidRate(r) && n >= 1 && r.burst == n as real && now > IDLE_HORIZON
    requires r.earned(now) - r.earned(0.0) < n as real
    ensures var cs := Breach(n, now);
      cs != [] && InTime(cs) && !WithinRate(r, cs, "") && Answers(r, map[], cs) != PlainAnswers(r, map[], cs)
  {
    BreachOrdered(n, now);
    BreachAdmits(r, n, now);
    PlainWindow(r, map[], Breach(n, now), "", 0.0);
  }

  lemma EarnedSince0(burst: real, perSec: real, now: real)
    ensures Steady(burst, perSec).earned(now) - Steady(burst, perSec).earned(0.0) == now * perSec
  {
    var r := Steady(burst, perSec);
    assert r.earned(now) == now * perSec;
    assert r.earned(0.0) == 0.0 * perSec == 0.0;
  }

  /** Otherwise a run from the empty limiter breaks the budget, and no limiter that never forgets would answer like it. */
  lemma BudgetBroken(n: nat, perSec: real) returns (cs: seq<Call>)
    requires perSec >= 0.0 && n as real > IDLE_HORIZON * perSec
    ensures cs != [] && InTime(cs) && !WithinBudget(n as real, perSec, cs, "")
    ensures var r := Steady(n as real, perSec); Answers(r, map[], cs) != PlainAnswers(r, map[], cs)
  {
    var now := ShortTime(n as real, perSec);
    cs := Breach(n, now);
    SteadyValid(n as real, perSec);
    EarnedSince0(n as real, perSec, now);
    BreachTooMany(Steady(n as real, perSec), n, now);
    NotWithin(n as real, perSec, cs, "");
  }

  lemma BudgetKept(burst: real, perSec: real)
    requires perSec >= 0.0 && 0.0 <= burst <= IDLE_HORIZON * perSec
    ensures AlwaysWithin(burst, perSec)
  {
    forall cs: seq<Call>, id: string | cs != [] && InTime(cs) ensures WithinBudget(burst, perSec, cs, id) {
      WritesWithin(burst, perSec, cs, id, cs[0].now);
    }
  }

  /** Every run stays within burst + rate * time exactly when ten minutes of refill reach the burst. */
  lemma BudgetExactly(n: nat, perSec: real)
    requires perSec >= 0.0
    ensures AlwaysWithin(n as real, perSec) <==> n as real <= IDLE_HORIZON * perSec
  {
    if n as real <= IDLE_HORIZON * perSec {
      BudgetKept(n as real, perSec);
    } else {
      var cs := BudgetBroken(n, perSec);
    }
  }

  /** In the terms of the configuration, a rate per minute and a burst: exactly when the burst is at most ten minutes' worth. */
  lemma ConfiguredExactly(perMin: nat, burst: nat)
    ensures AlwaysWithin(burst as real, perMin as real / 60.0) <==> burst <= 10 * perMin
  {
    BudgetExactly(burst, perMin as real / 60.0);
    assert IDLE_HORIZON * (perMin as real / 60.0) == (10 * perMin) as real;
  }

  /** Forgetting changes no answer, in any run and from any state, under exactly the same condition. */
  lemma ForgetsUnseenExactly(n: nat, perSec: real)
    requires perSec >= 0.0
    ensures RunsUnseen(Steady(n as real, perSec)) <==> n as real <= IDLE_HORIZON * perSec
    ensures ForgetsUnseen(Steady(n as real, perSec)) <==> n as real <= IDLE_HORIZON * perSec
  {
    var r := Steady(n as real, perSec);
    if n as real <= IDLE_HORIZON * perSec {
      SteadyReady(n as real, perSec);
      forall s: Buckets, cs: seq<Call>, from: real | Valid(r, s, from) && Ordered(cs, from)
        ensures Answers(r, s, cs) == PlainAnswers(r, s, cs)
      {
        PruningInvisible(r, s, s, cs, from);
      }
    } else {
      var cs := BudgetBroken(n, perSec);
      assert Valid(r, map[], cs[0].now);
    }
  }

  // ---------------------------------------------------------------- the code

  method Allowed(burst: real, perSec: real, bucket: Bucket, now: real) returns (b: Bucket, ok: bool)
    ensures b == Spent(Steady(burst, perSec), bucket, now) && ok == Admits(Steady(burst, perSec), bucket, now)
  {
    b := bucket;
    var elapsed := now - b.at;
    if elapsed > 0.0 {
      SteadyEarned(burst, perSec, bucket.at, now);
      var tokens := b.tokens + elapsed * perSec;
      if tokens > burst { tokens := burst; }
      b := Bucket(tokens, now);
    }
    ok := b.tokens >= 1.0;
    if ok { b := b.(tokens := b.tokens - 1.0); }
  }

  class WriteRateLimiter {
    const perSec: real
    const burst: real
    var buckets: Buckets

    constructor (perMin: nat, burst: nat)
      ensures perSec == perMin as real / 60.0 && this.burst == burst as real && buckets == map[]
    {
      perSec, this.burst, buckets := perMin as real / 60.0, burst as real, map[];
    }

    function TheRate(): Rate { Steady(burst, perSec) }

    /** Drops the identities idle for longer than the horizon. */
    method Prune(now: real)
      modifies this`buckets
      ensures buckets == Kept(old(buckets), now)
      ensures buckets == map id | id in old(buckets) && now - old(buckets)[id].at <= 600.0 :: old(buckets)[id]
    {
      var ids := buckets.Keys;
      while ids != {}
        invariant ids <= old(buckets).Keys
        invariant buckets == map id | id in old(buckets) && (id in ids || !Idle(old(buckets)[id], now)) :: old(buckets)[id]
        decreases ids
      {
        var id :| id in ids;
        if Idle(buckets[id], now) { buckets := buckets - {id}; }
        ids := ids - {id};
      }
    }

    method Allow(identity: string, now: real) returns (ok: bool)
      modifies this`buckets
      ensures var s := Pruned(old(buckets), now); var c := Call(identity, now);
        ok == Answer(TheRate(), s, c) && buckets == Called(TheRate(), s, c)
      ensures |old(buckets)| <= 1024 ==> buckets == Called(TheRate(), old(buckets), Call(identity, now))
    {
      if |buckets| > PRUNE_ABOVE { Prune(now); }
      var bucket := if identity in buckets then buckets[identity] else Bucket(burst, now);
      var b;
      b, ok := Allowed(burst, perSec, bucket, now);
      buckets := buckets[identity := b];
    }
  }

  // ---------------------------------------------------------------- the publish budget of a node

  const NODE_BURST: real := 320.0
  const NODE_REFILL: real := 2.0

  /** allowNode also moves the bucket's time back when the clock steps back. */
  function NodeSpent(b: Bucket, now: real): Bucket {
    var tokens := if now > b.at then Min(NODE_BURST, b.tokens + (now - b.at) * NODE_REFILL) else b.tokens;
    Bucket(if tokens < 1.0 then tokens else tokens - 1.0, now)
  }

  /** While the clock does not step back, a node's budget is the same bucket. */
  lemma NodeIsSteady(b: Bucket, now: real)
    requires b.at <= now
    ensures NodeSpent(b, now) == Spent(Steady(NODE_BURST, NODE_REFILL), b, now)
  {
  }

  function NodeAt(s: Buckets, c: Call): Bucket {
    if c.id in s then s[c.id] else Bucket(NODE_BURST, c.now)
  }

  predicate NodeAdmits(b: Bucket, now: real) {
    (if now > b.at then Min(NODE_BURST, b.tokens + (now - b.at) * NODE_REFILL) else b.tokens) >= 1.0
  }

  function NodeCalled(s: Buckets, c: Call): Buckets { s[c.id := NodeSpent(NodeAt(s, c), c.now)] }

  function NodeAnswers(s: Buckets, cs: seq<Call>): seq<bool>
    decreases |cs|
  {
    if cs == [] then []
    else [NodeAdmits(NodeAt(s, cs[0]), cs[0].now)] + NodeAnswers(NodeCalled(s, cs[0]), cs[1..])
  }

  lemma {:induction false} NodeRunsSteady(s: Buckets, cs: seq<Call>, from: real)
    requires Valid(Steady(NODE_BURST, NODE_REFILL), s, from) && Ordered(cs, from)
    ensures NodeAnswers(s, cs) == PlainAnswers(Steady(320.0, 2.0), s, cs)
    decreases |cs|
  {
    if cs != [] {
      var r, c := Steady(NODE_BURST, NODE_REFILL), cs[0];
      SteadyValid(NODE_BURST, NODE_REFILL);
      NodeIsSteady(NodeAt(s, c), c.now);
      SpentValid(r, At(r, s, c), c.now);
      NodeRunsSteady(Called(r, s, c), cs[1..], c.now);
    }
  }

  /** In any window, a node publishes at most 320 + 2 * time. */
  lemma PublishesWithin(s: Buckets, cs: seq<Call>, host: string, from: real)
    requires Valid(Steady(NODE_BURST, NODE_REFILL), s, from) && cs != [] && Ordered(cs, from)
    ensures |NodeAnswers(s, cs)| == |cs|
    ensures Admitted(cs, NodeAnswers(s, cs), host) as real <= 320.0 + 2.0 * (cs[|cs| - 1].now - cs[0].now)
  {
    SteadyValid(NODE_BURST, NODE_REFILL);
    NodeRunsSteady(s, cs, from);
    PlainWindow(Steady(NODE_BURST, NODE_REFILL), s, cs, host, from);
    SteadyEarned(NODE_BURST, NODE_REFILL, cs[0].now, cs[|cs| - 1].now);
  }

  class FleetBudgets {
    var budgets: Buckets

    constructor ()
      ensures budgets == map[]
    {
      budgets := map[];
    }

    method AllowNode(host: string, now: real) returns (ok: bool)
      modifies this
      ensures var b := NodeAt(old(budgets), Call(host, now));
        ok == NodeAdmits(b, now) && budgets == NodeCalled(old(budgets), Call(host, now))
    {
      var b := if host in budgets then budgets[host] else Bucket(NODE_BURST, now);
      var elapsed := now - b.at;
      var tokens := b.tokens;
      if elapsed > 0.0 { tokens := Min(NODE_BURST, tokens + elapsed * NODE_REFILL); }
      ok := tokens >= 1.0;
      budgets := budgets[host := Bucket(if ok then tokens - 1.0 else tokens, now)];
    }
  }

  // ---------------------------------------------------------------- a publish budget on any clock

  /** When a node last published, if it did. */
  datatype Last = Never | Once(time: real)

  function LastOf(s: Buckets, host: string): Last { if host in s then Once(s[host].at) else Never }

  function Later(last: Last, now: real): real { if last.Once? && now > last.time then now - last.time else 0.0 }

  /** How far the clock went forward between the calls of one node, added up; steps back do not count. */
  function Forward(last: Last, cs: seq<Call>, host: string): real
    decreases |cs|
  {
    if cs == [] then 0.0
    else if cs[0].id != host then Forward(last, cs[1..], host)
    else Later(last, cs[0].now) + Forward(Once(cs[0].now), cs[1..], host)
  }

  function NodeTokens(s: Buckets, host: string): real { if host in s then s[host].tokens else NODE_BURST }

  predicate NodeValid(s: Buckets, host: string) { 0.0 <= NodeTokens(s, host) <= NODE_BURST }

  lemma NodeCallTokens(s: Buckets, c: Call, host: string)
    requires NodeValid(s, host)
    ensures NodeValid(NodeCalled(s, c), host)
    ensures c.id != host ==> NodeTokens(NodeCalled(s, c), host) == NodeTokens(s, host) && LastOf(NodeCalled(s, c), host) == LastOf(s, host)
    ensures c.id == host ==>
      LastOf(NodeCalled(s, c), host) == Once(c.now) &&
      NodeTokens(NodeCalled(s, c), host) + (if NodeAdmits(NodeAt(s, c), c.now) then 1.0 else 0.0) <=
      NodeTokens(s, host) + NODE_REFILL * Later(LastOf(s, host), c.now)
  {
  }

  lemma {:induction false} NodeLength(s: Buckets, cs: seq<Call>)
    ensures |NodeAnswers(s, cs)| == |cs|
    decreases |cs|
  {
    if cs != [] { NodeLength(NodeCalled(s, cs[0]), cs[1..]); }
  }

  lemma NodeAdmittedStep(s: Buckets, cs: seq<Call>, host: string)
    requires cs != [] && |NodeAnswers(s, cs)| == |cs|
    ensures |NodeAnswers(NodeCalled(s, cs[0]), cs[1..])| == |cs| - 1
    ensures Admitted(cs, NodeAnswers(s, cs), host) ==
      (if cs[0].id == host && NodeAdmits(NodeAt(s, cs[0]), cs[0].now) then 1 else 0) +
      Admitted(cs[1..], NodeAnswers(NodeCalled(s, cs[0]), cs[1..]), host)
  {
    assert NodeAnswers(s, cs)[1..] == NodeAnswers(NodeCalled(s, cs[0]), cs[1..]);
  }

  /** On any clock a node publishes at most what it has now, plus twice what the clock goes forward between its calls. */
  lemma {:induction false} PublishesOnAnyClock(s: Buckets, cs: seq<Call>, host: string)
    requires NodeValid(s, host)
    ensures |NodeAnswers(s, cs)| == |cs|
    ensures Admitted(cs, NodeAnswers(s, cs), host) as real <= NodeTokens(s, host) + 2.0 * Forward(LastOf(s, host), cs, host)
    decreases |cs|
  {
    NodeLength(s, cs);
    if cs != [] {
      NodeCallTokens(s, cs[0], host);
      PublishesOnAnyClock(NodeCalled(s, cs[0]), cs[1..], host);
      NodeAdmittedStep(s, cs, host);
    }
  }

  /** The clock goes one second back and forth n times. */
  function BackAndForth(host: string, now: real, n: nat): (cs: seq<Call>)
    ensures |cs| == 2 * n
  {
    if n == 0 then [] else [Call(host, now - 1.0), Call(host, now)] + BackAndForth(host, now, n - 1)
  }

  /** Each time the node gets at least one publish through. */
  lemma {:induction false} EachTimeOne(s: Buckets, host: string, now: real, n: nat)
    requires host in s && s[host].at == now && NodeValid(s, host)
    ensures |NodeAnswers(s, BackAndForth(host, now, n))| == 2 * n
    ensures Admitted(BackAndForth(host, now, n), NodeAnswers(s, BackAndForth(host, now, n)), host) >= n
    decreases n
  {
    var cs := BackAndForth(host, now, n);
    NodeLength(s, cs);
    if n > 0 {
      var back := NodeCalled(s, cs[0]);
      var forth := NodeCalled(back, cs[1]);
      NodeCallTokens(s, cs[0], host);
      NodeCallTokens(back, cs[1], host);
      assert NodeAdmits(NodeAt(back, cs[1]), now);
      assert cs[1..][1..] == BackAndForth(host, now, n - 1);
      EachTimeOne(forth, host, now, n - 1);
      NodeAdmittedStep(s, cs, host);
      NodeAdmittedStep(back, cs[1..], host);
    }
  }

  /** So no bound in the length of the window holds: for every n, some run from the start gets n publishes through in a window of length 0. */
  lemma NodeClockStep(host: string, now: real, n: nat) returns (cs: seq<Call>)
    ensures cs != [] && cs[0].now == now && cs[|cs| - 1].now == now
    ensures |NodeAnswers(map[], cs)| == |cs| && Admitted(cs, NodeAnswers(map[], cs), host) > n
  {
    cs := [Call(host, now)] + BackAndForth(host, now, n);
    EndsNow(host, now, n);
    NodeLength(map[], cs);
    assert cs[1..] == BackAndForth(host, now, n);
    NodeAdmittedStep(map[], cs, host);
    NodeCallTokens(map[], cs[0], host);
    EachTimeOne(NodeCalled(map[], cs[0]), host, now, n);
  }

  lemma {:induction false} EndsNow(host: string, now: real, n: nat)
    ensures n > 0 ==> BackAndForth(host, now, n)[2 * n - 1].now == now
  {
    if n > 1 { EndsNow(host, now, n - 1); }
  }

  /** While the clock does not go back, what it goes forward is the window. */
  lemma {:induction false} ForwardIsWindow(last: real, cs: seq<Call>, host: string, end: real)
    requires Ordered(cs, last) && last <= end && (cs != [] ==> cs[|cs| - 1].now <= end)
    ensures 0.0 <= Forward(Once(last), cs, host) <= end - last
    decreases |cs|
  {
    if cs != [] {
      LastLatest(cs, last);
      if cs[0].id == host {
        ForwardIsWindow(cs[0].now, cs[1..], host, end);
      } else {
        OrderedEarlier(cs[1..], cs[0].now, last);
        ForwardIsWindow(last, cs[1..], host, end);
      }
    }
  }

  lemma OrderedEarlier(cs: seq<Call>, from: real, earlier: real)
    requires Ordered(cs, from) && earlier <= from
    ensures Ordered(cs, earlier)
  {
  }
}
