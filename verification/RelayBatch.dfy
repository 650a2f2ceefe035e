/** How the rows of one release are cut into injects. */
module RelayBatch {
  type Bytes = seq<bv8>

  /** relayBatchTextLimit, in bytes. */
  const TEXT_LIMIT: nat := 8192

  /** A row to type: its text, its nonce, its printed waiting minutes, and whether it is a worker directive. */
  datatype Item = Item(text: Bytes, nonce: Bytes, minutes: Bytes, directive: bool)

  function Digits(n: nat): (d: nat)
    ensures d >= 1
  {
    if n < 10 then 1 else 1 + Digits(n / 10)
  }

  /** UTF-8 bytes of the prefix that says how many minutes an expired row waited. */
  function ExpiredLength(item: Item, expired: bool): nat {
    if expired then 15 + |item.minutes| + 5 else 0
  }

  /** Bytes that row `item` takes as the n-th member of a batch. */
  function MemberLength(item: Item, n: nat, expired: bool): nat {
    1 + Digits(n) + 2 + ExpiredLength(item, expired) + |item.nonce| + 1 + |item.text|
  }

  function MembersLength(group: seq<Item>, expired: bool): (n: nat)
    ensures forall i | 0 <= i < |group| :: n > |group[i].text|
  {
    if group == [] then 0
    else MembersLength(group[..|group| - 1], expired) + MemberLength(group[|group| - 1], |group|, expired)
  }

  /** Byte length of relayBatchText. */
  function TextLength(group: seq<Item>, expired: bool): (n: nat)
    requires group != []
    ensures forall i | 0 <= i < |group| :: n > |group[i].text|
  {
    if |group| == 1 then ExpiredLength(group[0], expired) + |group[0].nonce| + 1 + |group[0].text|
    else 7 + Digits(|group|) + 4 + MembersLength(group, expired)
  }

  // ---------------------------------------------------------------- the text itself

  /** UTF-8 of what stands around the minutes an expired row waited, and around the number of rows in a batch. */
  const WAITED: Bytes := [0x5b, 0xeb, 0x8c, 0x80, 0xea, 0xb8, 0xb0, 0x20, 0xeb, 0xa7, 0x8c, 0xeb, 0xa3, 0x8c, 0x20]
  const MINUTES: Bytes := [0xeb, 0xb6, 0x84, 0x5d, 0x20]
  const BATCH: Bytes := [0x5b, 0x62, 0x61, 0x74, 0x63, 0x68, 0x20]
  const ROWS: Bytes := [0xea, 0xb1, 0xb4, 0x5d]
  const SPACE: Bytes := [0x20]
  const CLOSE: Bytes := [0x29, 0x20]

  /** strconv.Itoa of a natural number. */
  function Numeral(n: nat): Bytes {
    if n < 10 then [(0x30 + n) as bv8] else Numeral(n / 10) + [(0x30 + n % 10) as bv8]
  }

  function Lead(item: Item, expired: bool): Bytes { if expired then WAITED + item.minutes + MINUTES else [] }

  /** The nonce and the text of a row, with how long it waited if it expired. */
  function Body(item: Item, expired: bool): Bytes { Lead(item, expired) + Signed(item) }

  function Signed(item: Item): Bytes { item.nonce + SPACE + item.text }

  function Number(n: nat): Bytes { SPACE + Numeral(n) + CLOSE }

  function Head(n: nat): Bytes { BATCH + Numeral(n) + ROWS }

  function Members(group: seq<Item>, expired: bool): Bytes {
    if group == [] then []
    else Members(group[..|group| - 1], expired) + (Number(|group|) + Body(group[|group| - 1], expired))
  }

  /** relayBatchText. */
  function Text(group: seq<Item>, expired: bool): Bytes
    requires group != []
  {
    if |group| == 1 then Body(group[0], expired) else Head(|group|) + Members(group, expired)
  }

  /** relayBatchText's builder. */
  method Compose(group: seq<Item>, expired: bool) returns (text: Bytes)
    requires group != []
    ensures text == Text(group, expired) && |text| == TextLength(group, expired)
  {
    TextIs(group, expired);
    if |group| == 1 {
      text := group[0].nonce + SPACE + group[0].text;
      if expired { text := WAITED + group[0].minutes + MINUTES + text; }
      return;
    }
    text := BATCH + Numeral(|group|) + ROWS;
    ghost var head := text;
    for i := 0 to |group|
      invariant text == head + Members(group[..i], expired)
    {
      assert group[..i + 1][..i] == group[..i];
      text := AddRow(text, group[i], i + 1, expired);
      Joined(head, Members(group[..i], expired), Number(i + 1) + Body(group[i], expired));
    }
    assert group[..|group|] == group;
  }

  method AddRow(before: Bytes, item: Item, n: nat, expired: bool) returns (text: Bytes)
    ensures text == before + (Number(n) + Body(item, expired))
  {
    text := before + (SPACE + Numeral(n) + CLOSE);
    if expired { text := text + (WAITED + item.minutes + MINUTES); }
    text := text + (item.nonce + SPACE + item.text);
    Pieces(before, Number(n), Lead(item, expired), Signed(item));
  }

  lemma Joined(a: Bytes, b: Bytes, c: Bytes)
    ensures a + b + c == a + (b + c)
  {
  }

  lemma Pieces(a: Bytes, b: Bytes, c: Bytes, d: Bytes)
    ensures a + b + c + d == a + (b + (c + d)) && a + b + [] == a + b && [] + d == d
  {
  }

  lemma {:induction false} NumeralLength(n: nat)
    ensures |Numeral(n)| == Digits(n)
  {
    if n >= 10 { NumeralLength(n / 10); }
  }

  lemma {:induction false} MembersIs(group: seq<Item>, expired: bool)
    ensures |Members(group, expired)| == MembersLength(group, expired)
  {
    if group != [] {
      MembersIs(group[..|group| - 1], expired);
      NumeralLength(|group|);
    }
  }

  /** The lengths the cut is made by are those of the composed text. */
  lemma TextIs(group: seq<Item>, expired: bool)
    requires group != []
    ensures |Text(group, expired)| == TextLength(group, expired)
  {
    MembersIs(group, expired);
    NumeralLength(|group|);
  }

  predicate Within(part: Bytes, whole: Bytes, at: nat) {
    at + |part| <= |whole| && whole[at..at + |part|] == part
  }

  lemma {:induction false} MemberWithin(group: seq<Item>, i: nat, expired: bool) returns (at: nat)
    requires i < |group|
    ensures Within(Signed(group[i]), Members(group, expired), at)
  {
    var init, last := group[..|group| - 1], group[|group| - 1];
    if i < |init| {
      at := MemberWithin(init, i, expired);
      WithinFront(Signed(init[i]), Members(init, expired), Number(|group|) + Body(last, expired), at);
    } else {
      at := WithinEnd(Members(init, expired), Number(|group|), Lead(last, expired), Signed(last));
    }
  }

  lemma WithinEnd(a: Bytes, b: Bytes, c: Bytes, part: Bytes) returns (at: nat)
    ensures Within(part, a + (b + (c + part)), at)
  {
    at := |a| + |b| + |c|;
    Pieces(a, b, c, part);
  }

  lemma AtEnd(a: Bytes, part: Bytes) returns (at: nat)
    ensures Within(part, a + part, at)
  {
    at := |a|;
  }

  lemma WithinBack(part: Bytes, head: Bytes, whole: Bytes, at: nat) returns (k: nat)
    requires Within(part, whole, at)
    ensures Within(part, head + whole, k)
  {
    k := |head| + at;
    assert (head + whole)[|head| + at..|head| + at + |part|] == whole[at..at + |part|];
  }

  lemma WithinFront(part: Bytes, whole: Bytes, rest: Bytes, at: nat)
    requires Within(part, whole, at)
    ensures Within(part, whole + rest, at)
  {
    assert (whole + rest)[at..at + |part|] == whole[at..at + |part|];
  }

  /** Every row of a group is in the text it is typed as: its nonce, a space and its own text. */
  lemma RowIsTyped(group: seq<Item>, i: nat, expired: bool) returns (at: nat)
    requires i < |group|
    ensures Within(group[i].nonce + SPACE + group[i].text, Text(group, expired), at)
  {
    if |group| == 1 {
      at := AtEnd(Lead(group[0], expired), Signed(group[0]));
    } else {
      var k := MemberWithin(group, i, expired);
      at := WithinBack(Signed(group[i]), Head(|group|), Members(group, expired), k);
    }
  }

  // ---------------------------------------------------------------- what a good cut is

  function Flatten(groups: seq<seq<Item>>): seq<Item> {
    if groups == [] then [] else Flatten(groups[..|groups| - 1]) + groups[|groups| - 1]
  }

  /** One group: rows of one kind, and short enough unless it is a single row. */
  predicate Sendable(group: seq<Item>, expired: bool) {
    group != [] &&
    (forall i | 0 <= i < |group| :: group[i].directive == group[0].directive) &&
    (|group| > 1 ==> TextLength(group, expired) <= 8192)
  }

  /** The row cannot join the group. */
  predicate Refuses(group: seq<Item>, item: Item, expired: bool)
    requires group != []
  {
    group[0].directive != item.directive || |item.text| > 8192 || TextLength(group + [item], expired) > 8192
  }

  /** Rows in order, every group sendable, and no group could have taken the first row of the next. */
  predicate Cut(groups: seq<seq<Item>>, items: seq<Item>, expired: bool) {
    Flatten(groups) == items &&
    (forall i | 0 <= i < |groups| :: Sendable(groups[i], expired)) &&
    (forall i | 0 < i < |groups| :: Apart(groups, i, expired))
  }

  predicate Apart(groups: seq<seq<Item>>, i: nat, expired: bool)
    requires 0 < i < |groups|
  {
    groups[i] != [] && groups[i - 1] != [] && Refuses(groups[i - 1], groups[i][0], expired)
  }

  // ---------------------------------------------------------------- the code's loop

  /** relayGroupImmediate. */
  method Immediate(group: seq<Item>) returns (r: bool)
    ensures r <==> group != [] && forall i | 0 <= i < |group| :: group[i].directive
  {
    for i := 0 to |group|
      invariant forall j | 0 <= j < i :: group[j].directive
    {
      if !group[i].directive { return false; }
    }
    return |group| > 0;
  }

  method BatchGroups(items: seq<Item>, expired: bool) returns (groups: seq<seq<Item>>)
    ensures Cut(groups, items, expired)
  {
    groups := [];
    for i := 0 to |items|
      invariant Cut(groups, items[..i], expired)
      invariant i > 0 ==> groups != []
    {
      var item := items[i];
      assert items[..i + 1] == items[..i] + [item];
      if |groups| == 0 {
        groups := [[item]];
        assert Flatten([[item]]) == Flatten([]) + [item];
        continue;
      }
      var last := groups[|groups| - 1];
      assert Sendable(last, expired);
      var lastImmediate := Immediate(last);
      var itemImmediate := Immediate([item]);
      var candidate := last + [item];
      var text := Compose(candidate, expired);
      if lastImmediate != itemImmediate || |item.text| > TEXT_LIMIT || |text| > TEXT_LIMIT {
        Append(groups, items[..i], item, expired);
        groups := groups + [[item]];
      } else {
        Join(groups, items[..i], item, expired);
        groups := groups[|groups| - 1 := candidate];
      }
    }
    assert items[..|items|] == items;
  }

  lemma Append(groups: seq<seq<Item>>, items: seq<Item>, item: Item, expired: bool)
    requires Cut(groups, items, expired) && groups != [] && groups[|groups| - 1] != []
    requires Refuses(groups[|groups| - 1], item, expired)
    ensures Cut(groups + [[item]], items + [item], expired)
  {
    var more := groups + [[item]];
    assert more[..|more| - 1] == groups;
    assert Sendable([item], expired);
    forall i | 0 < i < |more| ensures Apart(more, i, expired) {
      if i < |groups| { assert Apart(groups, i, expired); }
    }
  }

  lemma Join(groups: seq<seq<Item>>, items: seq<Item>, item: Item, expired: bool)
    requires Cut(groups, items, expired) && groups != [] && groups[|groups| - 1] != []
    requires !Refuses(groups[|groups| - 1], item, expired)
    ensures Cut(groups[|groups| - 1 := groups[|groups| - 1] + [item]], items + [item], expired)
  {
    var n := |groups| - 1;
    var more := groups[n := groups[n] + [item]];
    assert more[..n] == groups[..n];
    assert Sendable(groups[n], expired);
    assert Sendable(more[n], expired);
    assert Flatten(more) == Flatten(groups[..n]) + (groups[n] + [item]);
    forall i | 0 < i < |more| ensures Apart(more, i, expired) {
      assert Apart(groups, i, expired);
    }
  }

  // ---------------------------------------------------------------- the cut is the only one

  /** A row longer than the limit travels alone. */
  lemma LongAlone(groups: seq<seq<Item>>, items: seq<Item>, expired: bool, i: nat, j: nat)
    requires Cut(groups, items, expired) && i < |groups| && j < |groups[i]| && |groups[i][j].text| > TEXT_LIMIT
    ensures |groups[i]| == 1
  {
    assert Sendable(groups[i], expired);
  }

  lemma {:induction false} DigitsGrow(m: nat, n: nat)
    requires m <= n
    ensures Digits(m) <= Digits(n)
    decreases n
  {
    if n >= 10 {
      DigitsGrow(if m < 10 then 0 else m / 10, n / 10);
    }
  }

  lemma {:induction false} MembersGrow(group: seq<Item>, k: nat, expired: bool)
    requires k <= |group|
    ensures MembersLength(group[..k], expired) <= MembersLength(group, expired)
  {
    if k < |group| {
      var init := group[..|group| - 1];
      assert init[..k] == group[..k];
      MembersGrow(init, k, expired);
    } else {
      assert group[..k] == group;
    }
  }

  /** A longer batch renders longer. */
  lemma TextGrows(group: seq<Item>, k: nat, expired: bool)
    requires 2 <= k <= |group|
    ensures TextLength(group[..k], expired) <= TextLength(group, expired)
  {
    DigitsGrow(k, |group|);
    MembersGrow(group, k, expired);
  }

  lemma {:induction false} FlattenFront(groups: seq<seq<Item>>)
    requires groups != []
    ensures Flatten(groups) == groups[0] + Flatten(groups[1..])
  {
    if |groups| == 1 {
      assert groups[..0] == [] && groups[1..] == [];
    } else {
      var init := groups[..|groups| - 1];
      FlattenFront(init);
      assert init[1..] == groups[1..][..|groups| - 2];
    }
  }

  lemma CutRest(groups: seq<seq<Item>>, items: seq<Item>, expired: bool)
    requires Cut(groups, items, expired) && groups != []
    ensures |groups[0]| <= |items| && groups[0] == items[..|groups[0]|] && groups[0] != []
    ensures Cut(groups[1..], items[|groups[0]|..], expired)
  {
    FlattenFront(groups);
    var rest := groups[1..];
    assert Sendable(groups[0], expired);
    assert Flatten(rest) == items[|groups[0]|..];
    forall i | 0 < i < |rest| ensures Apart(rest, i, expired) {
      assert Apart(groups, i + 1, expired);
    }
  }

  /** Inside a sendable group, every row was able to join the rows before it. */
  lemma RowJoins(group: seq<Item>, k: nat, expired: bool)
    requires Sendable(group, expired) && 1 <= k < |group|
    ensures !Refuses(group[..k], group[k], expired)
  {
    assert group[..k] + [group[k]] == group[..k + 1];
    TextGrows(group, k + 1, expired);
  }

  /** The first group never stops short of what another cut managed to send. */
  lemma FirstLongest(a: seq<seq<Item>>, b: seq<seq<Item>>, items: seq<Item>, expired: bool)
    requires Cut(a, items, expired) && Cut(b, items, expired) && a != [] && b != []
    ensures |a[0]| >= |b[0]|
  {
    CutRest(a, items, expired);
    CutRest(b, items, expired);
    var k := |a[0]|;
    if k < |b[0]| {
      assert Flatten(a[1..]) != [];
      assert |a| > 1;
      CutRest(a[1..], items[k..], expired);
      assert Apart(a, 1, expired) && a[1][0] == b[0][k] && a[0] == b[0][..k];
      RowJoins(b[0], k, expired);
    }
  }

  lemma FlattenEmpty(groups: seq<seq<Item>>)
    requires Flatten(groups) == [] && forall i | 0 <= i < |groups| :: groups[i] != []
    ensures groups == []
  {
  }

  /** The requirements leave only one way to cut the rows, so the loop's result is determined by them. */
  lemma {:induction false} CutUnique(a: seq<seq<Item>>, b: seq<seq<Item>>, items: seq<Item>, expired: bool)
    requires Cut(a, items, expired) && Cut(b, items, expired)
    ensures a == b
    decreases |items|
  {
    if items == [] {
      FlattenEmpty(a);
      FlattenEmpty(b);
    } else {
      assert a != [] && b != [];
      FirstLongest(a, b, items, expired);
      FirstLongest(b, a, items, expired);
      CutRest(a, items, expired);
      CutRest(b, items, expired);
      CutUnique(a[1..], b[1..], items[|a[0]|..], expired);
      assert a == [a[0]] + a[1..] && b == [b[0]] + b[1..];
    }
  }
}
