/**
  Forwarding messages (apiwrap.cpp, history/history_item_helpers.cpp): the items are put in order, cut into ranges by
  whether they are ephemeral and each range into batches by where they come from; every batch is one request that
  pays with the Stars approved, and a shared counter decides when the success callback runs.

  The sorted order is an input: the items are told apart by position, so there is one.
 */
module Forward {
  import opened Words

  type Peer = nat

  /** Ephemeral items without an id the bot knows are not forwarded. */
  datatype Item = Item(position: nat, peer: Peer, ephemeral: bool, lookupId: int)

  datatype Range = Range(items: seq<Item>, fromEphemeral: bool)

  datatype Batch = Batch(from: Peer, fromEphemeral: bool, items: seq<Item>, starsPaid: int)

  predicate Forwarded(item: Item) { !item.ephemeral || item.lookupId != 0 }

  function Kept(items: seq<Item>): seq<Item> {
    if |items| == 0 then []
    else Kept(items[..|items| - 1]) + if Forwarded(items[|items| - 1]) then [items[|items| - 1]] else []
  }

  ghost predicate InOrder(items: seq<Item>) {
    forall i, j :: 0 <= i < j < |items| ==> items[i].position < items[j].position
  }

  /** What is forwarded: all but the ephemeral items without an id, in order. */
  lemma {:induction false} KeptAre(items: seq<Item>)
    ensures forall item :: item in Kept(items) <==> item in items && (item.ephemeral ==> item.lookupId != 0)
    ensures InOrder(items) ==> InOrder(Kept(items))
  {
    if |items| > 0 {
      var init, last := items[..|items| - 1], items[|items| - 1];
      KeptAre(init);
      assert items == init + [last];
      if InOrder(items) {
        var kept := Kept(init);
        forall i | 0 <= i < |kept| ensures kept[i].position < last.position { assert kept[i] in init; }
      }
    }
  }

  // ---------- cutting into runs ----------

  function Concat(parts: seq<seq<Item>>): seq<Item> {
    if |parts| == 0 then [] else Concat(parts[..|parts| - 1]) + parts[|parts| - 1]
  }

  /** Every part is non-empty and of one kind, and neighbours are of different kinds. */
  ghost predicate MaximalRuns<K(!new)>(parts: seq<seq<Item>>, kind: Item -> K) {
    && (forall i :: 0 <= i < |parts| ==> parts[i] != [])
    && (forall i, k :: 0 <= i < |parts| && 0 <= k < |parts[i]| ==> kind(parts[i][k]) == kind(parts[i][0]))
    && (forall i :: 0 < i < |parts| && parts[i - 1] != [] && parts[i] != [] ==>
          kind(parts[i - 1][0]) != kind(parts[i][0]))
  }

  ghost predicate Cuts<K(!new)>(parts: seq<seq<Item>>, items: seq<Item>, kind: Item -> K) {
    Concat(parts) == items && MaximalRuns(parts, kind)
  }

  lemma ConcatNext(parts: seq<seq<Item>>, part: seq<Item>)
    ensures Concat(parts + [part]) == Concat(parts) + part
  {
    assert (parts + [part])[..|parts|] == parts;
  }

  /** An item of another kind starts a run. */
  lemma StartRun<K(!new)>(parts: seq<seq<Item>>, items: seq<Item>, item: Item, kind: Item -> K)
    requires Cuts(parts, items, kind)
    requires parts != [] && parts[|parts| - 1] != [] ==> kind(parts[|parts| - 1][0]) != kind(item)
    ensures Cuts(parts + [[item]], items + [item], kind)
  {
    ConcatNext(parts, [item]);
    hide Concat;
  }

  /** An item of the same kind joins the last run. */
  lemma JoinRun<K(!new)>(parts: seq<seq<Item>>, items: seq<Item>, item: Item, kind: Item -> K)
    requires Cuts(parts, items, kind)
    requires parts != [] && parts[|parts| - 1] != [] && kind(parts[|parts| - 1][0]) == kind(item)
    ensures Cuts(parts[..|parts| - 1] + [parts[|parts| - 1] + [item]], items + [item], kind)
  {
    var n := |parts| - 1;
    var u := parts[..n] + [parts[n] + [item]];
    ConcatNext(parts[..n], parts[n] + [item]);
    assert Concat(u) == items + [item] by { assert Concat(parts[..n]) + parts[n] == items; }
    hide Concat;
    forall i | 0 <= i < |u|
      ensures u[i] != [] && u[i][0] == parts[i][0]
    {
    }
  }

  /** A part that starts the whole ends where the kind changes. */
  lemma FirstPart<K(!new)>(parts: seq<seq<Item>>, items: seq<Item>, kind: Item -> K)
    requires Cuts(parts, items, kind) && items != []
    ensures parts != [] && parts[0] <= items && Cuts(parts[1..], items[|parts[0]|..], kind)
    ensures |parts[0]| < |items| ==> kind(items[|parts[0]|]) != kind(items[0])
    ensures forall k :: 0 <= k < |parts[0]| ==> kind(items[k]) == kind(items[0])
  {
    ConcatFront(parts);
    assert items == parts[0] + Concat(parts[1..]);
    if |parts| > 1 {
      ConcatFront(parts[1..]);
      assert items[|parts[0]|] == parts[1][0];
    }
  }

  lemma {:induction false} ConcatFront(parts: seq<seq<Item>>)
    ensures parts != [] ==> Concat(parts) == parts[0] + Concat(parts[1..])
  {
    if |parts| > 1 {
      ConcatFront(parts[..|parts| - 1]);
      assert parts[..|parts| - 1][1..] == parts[1..][..|parts| - 2];
    }
  }

  lemma NoParts<K(!new)>(parts: seq<seq<Item>>, kind: Item -> K)
    requires Cuts(parts, [], kind)
    ensures parts == []
  {
    if parts != [] {
      assert |parts[0]| > 0;
      ConcatFront(parts);
    }
  }

  /** Cutting into maximal runs can be done in one way only. */
  lemma {:induction false} OneWayToCut<K(!new)>(a: seq<seq<Item>>, b: seq<seq<Item>>, items: seq<Item>, kind: Item -> K)
    requires Cuts(a, items, kind) && Cuts(b, items, kind)
    ensures a == b
  {
    if items == [] {
      NoParts(a, kind);
      NoParts(b, kind);
    } else {
      FirstPart(a, items, kind);
      FirstPart(b, items, kind);
      assert |a[0]| == |b[0]|;
      assert a[0] == items[..|a[0]|] && b[0] == items[..|b[0]|];
      OneWayToCut(a[1..], b[1..], items[|a[0]|..], kind);
      assert a == [a[0]] + a[1..] && b == [b[0]] + b[1..];
    }
  }

  // ---------- ranges, then batches ----------

  function ByFlag(item: Item): bool { item.ephemeral }

  function ByFlagAndPeer(item: Item): (bool, Peer) { (item.ephemeral, item.peer) }

  function RangeParts(ranges: seq<Range>): (r: seq<seq<Item>>)
    ensures |r| == |ranges|
  {
    seq(|ranges|, i requires 0 <= i < |ranges| => ranges[i].items)
  }

  /** The ranges cut the items where the flag changes, and carry it. */
  ghost predicate RangesOf(ranges: seq<Range>, items: seq<Item>) {
    Cuts(RangeParts(ranges), items, ByFlag) && Flagged(ranges)
  }

  ghost predicate Flagged(ranges: seq<Range>) {
    forall i, k :: 0 <= i < |ranges| && 0 <= k < |ranges[i].items| ==>
      ranges[i].items[k].ephemeral == ranges[i].fromEphemeral
  }

  /** Where the next item goes. */
  function PushItem(ranges: seq<Range>, item: Item): seq<Range> {
    var n := |ranges| - 1;
    if |ranges| == 0 || ranges[n].fromEphemeral != item.ephemeral then ranges + [Range([item], item.ephemeral)]
    else ranges[..n] + [ranges[n].(items := ranges[n].items + [item])]
  }

  lemma PushFlagged(ranges: seq<Range>, item: Item)
    requires Flagged(ranges)
    ensures Flagged(PushItem(ranges, item))
  {
  }

  lemma PushKeeps(ranges: seq<Range>, items: seq<Item>, item: Item)
    requires RangesOf(ranges, items)
    ensures RangesOf(PushItem(ranges, item), items + [item])
  {
    var parts, u, n := RangeParts(ranges), PushItem(ranges, item), |ranges| - 1;
    PushFlagged(ranges, item);
    if n >= 0 { assert parts[n] != [] && ranges[n].items[0].ephemeral == ranges[n].fromEphemeral; }
    hide Flagged;
    if n < 0 || ranges[n].fromEphemeral != item.ephemeral {
      StartRun(parts, items, item, ByFlag);
      hide Cuts;
      assert RangeParts(u) == parts + [[item]];
    } else {
      JoinRun(parts, items, item, ByFlag);
      hide Cuts;
      assert RangeParts(u) == parts[..n] + [parts[n] + [item]];
    }
  }

  /** CollectForwardRanges, after sorting. */
  method CollectForwardRanges(ordered: seq<Item>) returns (ranges: seq<Range>)
    ensures RangesOf(ranges, Kept(ordered))
  {
    ranges := [];
    assert RangesOf([], []);
    hide RangesOf;
    for i := 0 to |ordered|
      invariant RangesOf(ranges, Kept(ordered[..i]))
    {
      var item := ordered[i];
      assert ordered[..i + 1][..i] == ordered[..i];
      if item.ephemeral && item.lookupId == 0 { continue; }
      PushKeeps(ranges, Kept(ordered[..i]), item);
      ghost var was, pushed := ranges, PushItem(ranges, item);
      if |ranges| == 0 || ranges[|ranges| - 1].fromEphemeral != item.ephemeral {
        ranges := ranges + [Range([], item.ephemeral)];
      }
      var n := |ranges| - 1;
      ranges := ranges[..n] + [ranges[n].(items := ranges[n].items + [item])];
      assert ranges[..n] == if n == |was| then was else was[..n];
      assert n == |was| ==> ranges[n].items == [item];
      assert ranges == pushed;
    }
    assert ordered[..|ordered|] == ordered;
  }

  // ---------- Stars ----------

  const TWO_TO_THE_31 := 0x8000_0000

  function Min(a: int, b: int): int { if a < b then a else b }

  function Max(a: int, b: int): int { if a < b then b else a }

  /** What a batch of n items pays when so many Stars are still approved. */
  function Pay(approved: int, n: nat, price: nat): int { Min(approved, Int32(n * price)) }

  function Size(batches: seq<Batch>): nat {
    if |batches| == 0 then 0 else Size(batches[..|batches| - 1]) + |batches[|batches| - 1].items|
  }

  function Paid(batches: seq<Batch>): int {
    if |batches| == 0 then 0 else Paid(batches[..|batches| - 1]) + batches[|batches| - 1].starsPaid
  }

  /** Each batch pays from what the ones before left. */
  ghost predicate PaysInTurn(batches: seq<Batch>, approved: int, price: nat) {
    forall i :: 0 <= i < |batches| ==>
      batches[i].starsPaid == Pay(approved - Paid(batches[..i]), |batches[i].items|, price)
  }

  /** What should be left when so many items are paid for. */
  function Left(approved: nat, paidFor: nat, price: nat): nat { Max(approved - paidFor * price, 0) }

  /** The product fits, or its 32-bit value still covers what is left. */
  predicate Covers(approved: nat, before: nat, n: nat, price: nat) {
    n * price < TWO_TO_THE_31 || Int32(n * price) >= Left(approved, before, price)
  }

  lemma Int32Fits(n: nat)
    requires n < TWO_TO_THE_31
    ensures Int32(n) == n
  {
  }

  lemma LeftNext(approved: nat, before: nat, n: nat, price: nat)
    ensures Left(approved, before + n, price) == Max(Left(approved, before, price) - n * price, 0)
  {
    assert (before + n) * price == before * price + n * price;
  }

  /** One batch pays what it should exactly if its product is covered. */
  lemma PayIsRight(approved: nat, before: nat, n: nat, price: nat)
    requires approved < TWO_TO_THE_31
    ensures Pay(Left(approved, before, price), n, price) == Min(Left(approved, before, price), n * price)
            <==> Covers(approved, before, n, price)
  {
    var left, product := Left(approved, before, price), n * price;
    assert before * price >= 0 && product >= 0;
    assert left < TWO_TO_THE_31;
    if product < TWO_TO_THE_31 { Int32Fits(product); }
  }

  ghost predicate PaysRight(batches: seq<Batch>, approved: nat, price: nat) {
    forall i :: 0 <= i < |batches| ==>
      batches[i].starsPaid == Min(Left(approved, Size(batches[..i]), price), |batches[i].items| * price)
  }

  ghost predicate AllCovered(batches: seq<Batch>, approved: nat, price: nat) {
    forall i :: 0 <= i < |batches| ==> Covers(approved, Size(batches[..i]), |batches[i].items|, price)
  }

  /** While batches pay what they should, what is left is what should be. */
  lemma {:induction false} PaidSoFar(batches: seq<Batch>, approved: nat, price: nat, n: nat)
    requires n <= |batches|
    requires forall i :: 0 <= i < n ==>
               batches[i].starsPaid == Min(Left(approved, Size(batches[..i]), price), |batches[i].items| * price)
    ensures approved - Paid(batches[..n]) == Left(approved, Size(batches[..n]), price)
  {
    if n > 0 {
      PaidSoFar(batches, approved, price, n - 1);
      assert batches[..n][..n - 1] == batches[..n - 1];
      LeftNext(approved, Size(batches[..n - 1]), |batches[n - 1].items|, price);
    }
  }

  /**
    Every batch pays the smaller of what is left and its number of items times the price, exactly if no product is cut
    to 32 bits below what is left.
   */
  lemma {:induction false} StarsAreRight(batches: seq<Batch>, approved: nat, price: nat)
    requires approved < TWO_TO_THE_31 && PaysInTurn(batches, approved, price)
    ensures PaysRight(batches, approved, price) <==> AllCovered(batches, approved, price)
  {
    forall i | 0 <= i < |batches| && forall k :: 0 <= k < i ==>
                 batches[k].starsPaid == Min(Left(approved, Size(batches[..k]), price), |batches[k].items| * price)
      ensures batches[i].starsPaid == Min(Left(approved, Size(batches[..i]), price), |batches[i].items| * price)
              <==> Covers(approved, Size(batches[..i]), |batches[i].items|, price)
    {
      PaidSoFar(batches, approved, price, i);
      PayIsRight(approved, Size(batches[..i]), |batches[i].items|, price);
    }
    if AllCovered(batches, approved, price) { RightUpTo(batches, approved, price, |batches|); }
  }

  lemma {:induction false} RightUpTo(batches: seq<Batch>, approved: nat, price: nat, n: nat)
    requires approved < TWO_TO_THE_31 && PaysInTurn(batches, approved, price) && AllCovered(batches, approved, price)
    requires n <= |batches|
    ensures forall i :: 0 <= i < n ==>
              batches[i].starsPaid == Min(Left(approved, Size(batches[..i]), price), |batches[i].items| * price)
  {
    if n > 0 {
      RightUpTo(batches, approved, price, n - 1);
      PaidSoFar(batches, approved, price, n - 1);
      PayIsRight(approved, Size(batches[..n - 1]), |batches[n - 1].items|, price);
    }
  }

  /** Then the total is the smaller of what was approved and all items times the price, and the rest is not negative. */
  lemma TotalIfCovered(batches: seq<Batch>, approved: nat, price: nat)
    requires approved < TWO_TO_THE_31 && PaysInTurn(batches, approved, price) && AllCovered(batches, approved, price)
    ensures Paid(batches) == Min(approved, Size(batches) * price)
  {
    RightUpTo(batches, approved, price, |batches|);
    PaidSoFar(batches, approved, price, |batches|);
    assert batches[..|batches|] == batches;
  }

  ghost predicate NoneCut(batches: seq<Batch>, price: nat) {
    forall i :: 0 <= i < |batches| ==> |batches[i].items| * price < TWO_TO_THE_31
  }

  /** The products of the batches, each cut to 32 bits. */
  function Products(batches: seq<Batch>, price: nat): int {
    if |batches| == 0 then 0
    else Products(batches[..|batches| - 1], price) + Int32(|batches[|batches| - 1].items| * price)
  }

  function Run(batches: seq<Batch>, k: nat, n: nat, price: nat): int
    requires k <= n <= |batches|
  {
    Products(batches[k..n], price)
  }

  /** What is left after n batches is at most x: so says every run of products up to the last, the whole included. */
  ghost predicate AtMost(batches: seq<Batch>, approved: nat, price: nat, n: nat, x: int)
    requires n <= |batches|
  {
    approved - Run(batches, 0, n, price) <= x && forall k :: 1 <= k <= n ==> -Run(batches, k, n, price) <= x
  }

  lemma RunNext(batches: seq<Batch>, price: nat, k: nat, n: nat)
    requires k < n <= |batches|
    ensures Run(batches, k, n, price) == Run(batches, k, n - 1, price) + Int32(|batches[n - 1].items| * price)
  {
    assert batches[k..n][..n - 1 - k] == batches[k..n - 1];
  }

  lemma AtMostNext(batches: seq<Batch>, approved: nat, price: nat, n: nat, x: int)
    requires 0 < n <= |batches|
    ensures AtMost(batches, approved, price, n, x)
            <==> 0 <= x && AtMost(batches, approved, price, n - 1, x + Int32(|batches[n - 1].items| * price))
  {
    var m, t := n - 1, Int32(|batches[n - 1].items| * price);
    forall k | 0 <= k <= m
      ensures Run(batches, k, n, price) == Run(batches, k, m, price) + t
    {
      RunNext(batches, price, k, n);
    }
    assert Run(batches, n, n, price) == 0;
    hide Int32, Run;
  }

  lemma {:induction false} RestIs(batches: seq<Batch>, approved: nat, price: nat, n: nat, x: int)
    requires n <= |batches| && PaysInTurn(batches, approved, price)
    ensures approved - Paid(batches[..n]) <= x <==> AtMost(batches, approved, price, n, x)
  {
    if n > 0 {
      var t := Int32(|batches[n - 1].items| * price);
      hide Int32;
      AtMostNext(batches, approved, price, n, x);
      RestIs(batches, approved, price, n - 1, x + t);
      assert batches[..n][..n - 1] == batches[..n - 1];
      assert batches[n - 1].starsPaid == Min(approved - Paid(batches[..n - 1]), t);
    } else {
      assert Run(batches, 0, 0, price) == 0;
    }
  }

  lemma {:induction false} SizeCovers(batches: seq<Batch>, i: nat)
    requires i < |batches|
    ensures |batches[i].items| <= Size(batches)
  {
    if i < |batches| - 1 { SizeCovers(batches[..|batches| - 1], i); }
  }

  /** When a product is cut, all items cost more than can be approved. */
  lemma CutIsMore(batches: seq<Batch>, price: nat)
    requires !NoneCut(batches, price)
    ensures Size(batches) * price >= TWO_TO_THE_31
  {
    var i :| 0 <= i < |batches| && |batches[i].items| * price >= TWO_TO_THE_31;
    SizeCovers(batches, i);
    TimesGrows(|batches[i].items|, Size(batches), price);
  }

  lemma TimesGrows(m: nat, n: nat, price: nat)
    requires m <= n
    ensures m * price <= n * price
  {
  }

  /**
    The total is the smaller of what was approved and all items times the price exactly if no product is cut, or the
    cut products reach what was approved and no run of them up to the last is negative.
   */
  lemma TotalIsRight(batches: seq<Batch>, approved: nat, price: nat)
    requires approved < TWO_TO_THE_31 && PaysInTurn(batches, approved, price)
    ensures Paid(batches) == Min(approved, Size(batches) * price)
            <==> (NoneCut(batches, price)
                  || (Products(batches, price) >= approved
                      && forall k :: 1 <= k < |batches| ==> Products(batches[k..], price) >= 0))
  {
    var n := |batches|;
    if NoneCut(batches, price) {
      TotalIfCovered(batches, approved, price);
    } else {
      CutIsMore(batches, price);
      RestIs(batches, approved, price, n, 0);
      RestIs(batches, approved, price, n, -1);
      assert batches[..n] == batches == batches[0..n] && batches[n..n] == [];
      assert forall k :: 1 <= k < n ==> Run(batches, k, n, price) == Products(batches[k..], price) by {
        forall k | 1 <= k < n ensures Run(batches, k, n, price) == Products(batches[k..], price) {
          assert batches[k..n] == batches[k..];
        }
      }
      assert Run(batches, n, n, price) == 0;
      hide Products, Paid, Int32, Size, PaysInTurn;
      assert AtMost(batches, approved, price, n, 0)
             <==> (Products(batches, price) >= approved
                   && forall k :: 1 <= k < n ==> Products(batches[k..], price) >= 0);
    }
  }

  /** Two items at the highest price: their product is cut to -2, and Stars are added instead. */
  lemma StarsCanOverflow(a: Item, b: Item)
    ensures var batches := [Batch(a.peer, false, [a, b], -2)];
            PaysInTurn(batches, 100, TWO_TO_THE_31 - 1) && Paid(batches) < 0
  {
    assert Int32(2 * (TWO_TO_THE_31 - 1)) == -2;
    assert [Batch(a.peer, false, [a, b], -2)][..0] == [];
  }

  // ---------- sending ----------

  function BatchParts(batches: seq<Batch>): (r: seq<seq<Item>>)
    ensures |r| == |batches|
  {
    seq(|batches|, i requires 0 <= i < |batches| => batches[i].items)
  }

  /** Each batch names the peer and the flag of all its items. */
  ghost predicate Labelled(batches: seq<Batch>) {
    forall i, k :: 0 <= i < |batches| && 0 <= k < |batches[i].items| ==>
      batches[i].items[k].peer == batches[i].from && batches[i].items[k].ephemeral == batches[i].fromEphemeral
  }

  /** The batches sent and, if there are any, the ids gathered since. */
  function AllParts(batches: seq<Batch>, ids: seq<Item>): seq<seq<Item>> {
    if ids == [] then BatchParts(batches) else BatchParts(batches) + [ids]
  }

  ghost predicate OfOne(ids: seq<Item>, from: Peer, flag: bool) {
    forall k :: 0 <= k < |ids| ==> ids[k].peer == from && ids[k].ephemeral == flag
  }

  /** The state of the loops: what was visited is cut into the batches sent and the ids gathered. */
  ghost predicate Gathered(batches: seq<Batch>, ids: seq<Item>, from: Peer, flag: bool, visited: seq<Item>) {
    && Cuts(AllParts(batches, ids), visited, ByFlagAndPeer) && Labelled(batches) && OfOne(ids, from, flag)
  }

  /** Sending what was gathered. */
  lemma SendKeeps(batches: seq<Batch>, ids: seq<Item>, from: Peer, flag: bool, visited: seq<Item>, paid: int)
    requires Gathered(batches, ids, from, flag, visited) && ids != []
    ensures Gathered(batches + [Batch(from, flag, ids, paid)], [], from, flag, visited)
  {
    var u := batches + [Batch(from, flag, ids, paid)];
    hide Cuts;
    assert BatchParts(u) == BatchParts(batches) + [ids];
  }

  lemma PayKeeps(batches: seq<Batch>, batch: Batch, approved: int, price: nat)
    requires PaysInTurn(batches, approved, price)
    requires batch.starsPaid == Pay(approved - Paid(batches), |batch.items|, price)
    ensures PaysInTurn(batches + [batch], approved, price) && Paid(batches + [batch]) == Paid(batches) + batch.starsPaid
  {
    var u := batches + [batch];
    assert u[..|batches|] == batches;
    hide Pay;
    forall i | 0 <= i < |u|
      ensures u[i].starsPaid == Pay(approved - Paid(u[..i]), |u[i].items|, price)
    {
      if i < |batches| { assert u[..i] == batches[..i]; }
    }
  }

  /** The next item joins those gathered from the same peer. */
  lemma GatherMore(batches: seq<Batch>, ids: seq<Item>, from: Peer, flag: bool, visited: seq<Item>, item: Item)
    requires Gathered(batches, ids, from, flag, visited) && item.peer == from && item.ephemeral == flag && ids != []
    ensures Gathered(batches, ids + [item], from, flag, visited + [item])
  {
    var parts := AllParts(batches, ids);
    JoinRun(parts, visited, item, ByFlagAndPeer);
    hide Cuts;
    assert AllParts(batches, ids + [item]) == parts[..|parts| - 1] + [parts[|parts| - 1] + [item]];
  }

  /** The first item gathered; the last batch is of another kind. */
  lemma GatherFirst(batches: seq<Batch>, from: Peer, flag: bool, visited: seq<Item>, item: Item)
    requires Gathered(batches, [], from, flag, visited) && item.peer == from && item.ephemeral == flag
    requires batches != [] ==> var last := batches[|batches| - 1]; last.from != from || last.fromEphemeral != flag
    ensures Gathered(batches, [item], from, flag, visited + [item])
  {
    var parts := AllParts(batches, []);
    if batches != [] {
      var last := batches[|batches| - 1];
      assert parts[|parts| - 1] == last.items && last.items != [];
      assert last.items[0].peer == last.from && last.items[0].ephemeral == last.fromEphemeral;
    }
    StartRun(parts, visited, item, ByFlagAndPeer);
    hide Cuts;
    assert AllParts(batches, [item]) == parts + [[item]];
  }

  lemma GatherKeeps(batches: seq<Batch>, ids: seq<Item>, from: Peer, flag: bool, visited: seq<Item>, item: Item)
    requires Gathered(batches, ids, from, flag, visited) && item.peer == from && item.ephemeral == flag
    requires ids == [] && batches != [] ==>
               var last := batches[|batches| - 1]; last.from != from || last.fromEphemeral != flag
    ensures Gathered(batches, ids + [item], from, flag, visited + [item])
  {
    hide Gathered;
    if ids == [] {
      GatherFirst(batches, from, flag, visited, item);
      assert ids + [item] == [item];
    } else {
      GatherMore(batches, ids, from, flag, visited, item);
    }
  }

  /** What the call counts: the requests sent are those left, and the Stars are those the batches did not pay. */
  ghost predicate Counted(batches: seq<Batch>, requestsLeft: int, stars: int, approved: int, price: nat) {
    requestsLeft == |batches| && PaysInTurn(batches, approved, price) && stars == approved - Paid(batches)
  }

  lemma CountedNext(before: seq<Batch>, batch: Batch, left: int, stars: int, approved: int, price: nat)
    requires Counted(before, left, stars, approved, price)
    requires batch.starsPaid == Pay(stars, |batch.items|, price)
    ensures Counted(before + [batch], left + 1, stars - batch.starsPaid, approved, price)
  {
    hide PaysInTurn, Paid, Pay;
    PayKeeps(before, batch, approved, price);
  }

  /** The lambda sendAccumulated. */
  method SendAccumulated(before: seq<Batch>, ids: seq<Item>, forwardFrom: Peer, fromEphemeral: bool, left: int,
                         stars: int, price: nat, ghost approved: int, ghost visited: seq<Item>)
    returns (batches: seq<Batch>, requestsLeft: int, starsApproved: int)
    requires Gathered(before, ids, forwardFrom, fromEphemeral, visited)
    requires Counted(before, left, stars, approved, price)
    ensures Gathered(batches, [], forwardFrom, fromEphemeral, visited)
    ensures Counted(batches, requestsLeft, starsApproved, approved, price)
    ensures if ids == [] then batches == before
            else batches != [] && batches[|batches| - 1].from == forwardFrom
                 && batches[|batches| - 1].fromEphemeral == fromEphemeral
  {
    hide *;
    if ids == [] { return before, left, stars; }
    requestsLeft := left + 1;
    var starsPaid := Pay(stars, |ids|, price);
    var batch := Batch(forwardFrom, fromEphemeral, ids, starsPaid);
    SendKeeps(before, ids, forwardFrom, fromEphemeral, visited, starsPaid);
    CountedNext(before, batch, left, stars, approved, price);
    batches := before + [batch];
    starsApproved := if starsPaid != 0 then stars - starsPaid else stars;
  }

  lemma NothingGathered(batches: seq<Batch>, from: Peer, flag: bool, visited: seq<Item>, other: Peer, otherFlag: bool)
    requires Gathered(batches, [], from, flag, visited)
    ensures Gathered(batches, [], other, otherFlag, visited)
  {
  }

  /** The inner loop of forwardMessages. */
  method ForwardRange(range: Range, before: seq<Batch>, left: int, stars: int, price: nat, from: Peer,
                      ghost approved: int, ghost visited: seq<Item>)
    returns (batches: seq<Batch>, requestsLeft: int, starsApproved: int, forwardFrom: Peer)
    requires Gathered(before, [], from, range.fromEphemeral, visited) && range.items != []
    requires forall k :: 0 <= k < |range.items| ==> range.items[k].ephemeral == range.fromEphemeral
    requires before != [] ==> before[|before| - 1].fromEphemeral != range.fromEphemeral
    requires Counted(before, left, stars, approved, price)
    ensures Gathered(batches, [], forwardFrom, range.fromEphemeral, visited + range.items)
    ensures Counted(batches, requestsLeft, starsApproved, approved, price)
    ensures batches != [] && batches[|batches| - 1].fromEphemeral == range.fromEphemeral
  {
    hide *;
    batches, requestsLeft, starsApproved, forwardFrom := before, left, stars, from;
    var ids: seq<Item> := [];
    assert visited + range.items[..0] == visited;
    for k := 0 to |range.items|
      invariant Gathered(batches, ids, forwardFrom, range.fromEphemeral, visited + range.items[..k])
      invariant if k == 0 then ids == [] && batches == before else ids != []
      invariant Counted(batches, requestsLeft, starsApproved, approved, price)
    {
      var item := range.items[k];
      ghost var done := visited + range.items[..k];
      if forwardFrom != item.peer {
        batches, requestsLeft, starsApproved := SendAccumulated(batches, ids, forwardFrom, range.fromEphemeral,
                                                                requestsLeft, starsApproved, price, approved, done);
        ids := [];
        NothingGathered(batches, forwardFrom, range.fromEphemeral, done, item.peer, range.fromEphemeral);
        forwardFrom := item.peer;
      }
      GatherKeeps(batches, ids, forwardFrom, range.fromEphemeral, done, item);
      ids := ids + [item];
      assert done + [item] == visited + range.items[..k + 1];
    }
    assert range.items[..|range.items|] == range.items;
    batches, requestsLeft, starsApproved := SendAccumulated(batches, ids, forwardFrom, range.fromEphemeral,
                                                            requestsLeft, starsApproved, price, approved,
                                                            visited + range.items);
  }

  lemma RangesDiffer(ranges: seq<Range>, items: seq<Item>, r: nat)
    requires RangesOf(ranges, items) && r < |ranges|
    ensures ranges[r].items != []
    ensures forall k :: 0 <= k < |ranges[r].items| ==> ranges[r].items[k].ephemeral == ranges[r].fromEphemeral
    ensures r > 0 ==> ranges[r - 1].fromEphemeral != ranges[r].fromEphemeral
    ensures Concat(RangeParts(ranges)[..r + 1]) == Concat(RangeParts(ranges)[..r]) + ranges[r].items
  {
    var parts := RangeParts(ranges);
    assert parts[r] == ranges[r].items && (r > 0 ==> parts[r - 1] == ranges[r - 1].items && parts[r - 1] != []);
    assert parts[..r + 1][..r] == parts[..r];
  }

  /** The state of the loop over ranges. */
  ghost predicate Ranged(batches: seq<Batch>, from: Peer, flag: bool, ranges: seq<Range>, r: nat)
    requires r <= |ranges|
  {
    && Gathered(batches, [], from, flag, Concat(RangeParts(ranges)[..r]))
    && if r == 0 then batches == []
       else batches != [] && batches[|batches| - 1].fromEphemeral == ranges[r - 1].fromEphemeral
  }

  lemma NoneRanged(ranges: seq<Range>, from: Peer)
    ensures Ranged([], from, false, ranges, 0) && BatchParts([]) == []
  {
  }

  /** The next range may start. */
  lemma RangeStarts(batches: seq<Batch>, from: Peer, flag: bool, ranges: seq<Range>, items: seq<Item>, r: nat)
    requires RangesOf(ranges, items) && r < |ranges| && Ranged(batches, from, flag, ranges, r)
    ensures Gathered(batches, [], from, ranges[r].fromEphemeral, Concat(RangeParts(ranges)[..r]))
    ensures ranges[r].items != []
    ensures forall k :: 0 <= k < |ranges[r].items| ==> ranges[r].items[k].ephemeral == ranges[r].fromEphemeral
    ensures batches != [] ==> batches[|batches| - 1].fromEphemeral != ranges[r].fromEphemeral
  {
    hide RangesOf, Gathered, RangeParts, Concat;
    RangesDiffer(ranges, items, r);
    NothingGathered(batches, from, flag, Concat(RangeParts(ranges)[..r]), from, ranges[r].fromEphemeral);
  }

  lemma RangeEnds(batches: seq<Batch>, from: Peer, ranges: seq<Range>, items: seq<Item>, r: nat)
    requires RangesOf(ranges, items) && r < |ranges|
    requires Gathered(batches, [], from, ranges[r].fromEphemeral, Concat(RangeParts(ranges)[..r]) + ranges[r].items)
    requires batches != [] && batches[|batches| - 1].fromEphemeral == ranges[r].fromEphemeral
    ensures Ranged(batches, from, ranges[r].fromEphemeral, ranges, r + 1)
  {
    hide RangesOf, Gathered, RangeParts, Concat;
    RangesDiffer(ranges, items, r);
  }

  lemma AllRanged(batches: seq<Batch>, from: Peer, flag: bool, ranges: seq<Range>, items: seq<Item>)
    requires RangesOf(ranges, items) && ranges != [] && Ranged(batches, from, flag, ranges, |ranges|)
    ensures Cuts(BatchParts(batches), items, ByFlagAndPeer) && Labelled(batches) && batches != []
  {
    assert RangeParts(ranges)[..|ranges|] == RangeParts(ranges);
    AllSent(batches, from, flag, items);
  }

  /** The loops of forwardMessages: the batches sent, the requests they wait for and the Stars still approved. */
  method ForwardRanges(ranges: seq<Range>, ghost items: seq<Item>, approved: int, price: nat)
    returns (batches: seq<Batch>, requestsLeft: int, starsApproved: int)
    requires RangesOf(ranges, items) && ranges != []
    ensures Cuts(BatchParts(batches), items, ByFlagAndPeer) && Labelled(batches) && batches != []
    ensures Counted(batches, requestsLeft, starsApproved, approved, price)
  {
    RangesDiffer(ranges, items, 0);
    batches, requestsLeft, starsApproved := [], 0, approved;
    var forwardFrom, fromEphemeral := ranges[0].items[0].peer, false;
    assert Counted([], 0, approved, approved, price);
    hide *;
    NoneRanged(ranges, forwardFrom);
    for r := 0 to |ranges|
      invariant Ranged(batches, forwardFrom, fromEphemeral, ranges, r)
      invariant Counted(batches, requestsLeft, starsApproved, approved, price)
    {
      RangeStarts(batches, forwardFrom, fromEphemeral, ranges, items, r);
      fromEphemeral := ranges[r].fromEphemeral;
      batches, requestsLeft, starsApproved, forwardFrom :=
        ForwardRange(ranges[r], batches, requestsLeft, starsApproved, price, forwardFrom, approved,
                     Concat(RangeParts(ranges)[..r]));
      RangeEnds(batches, forwardFrom, ranges, items, r);
    }
    AllRanged(batches, forwardFrom, fromEphemeral, ranges, items);
  }

  lemma AllSent(batches: seq<Batch>, from: Peer, flag: bool, items: seq<Item>)
    requires Gathered(batches, [], from, flag, items)
    ensures Cuts(BatchParts(batches), items, ByFlagAndPeer) && Labelled(batches)
  {
  }

  // ---------- the success callback ----------

  datatype Event = Send | Done | Fail

  /** SharedCallback, and how often the callback ran. */
  datatype Shared = Shared(requestsLeft: int, fired: nat)

  /** A send counts up, a done reply down, and the callback runs at zero; a failed one counts nothing. */
  function Count(s: Shared, e: Event): Shared {
    match e
    case Send => s.(requestsLeft := s.requestsLeft + 1)
    case Done => Shared(s.requestsLeft - 1, s.fired + if s.requestsLeft == 1 then 1 else 0)
    case Fail => s
  }

  function After(trace: seq<Event>): Shared {
    if |trace| == 0 then Shared(0, 0) else Count(After(trace[..|trace| - 1]), trace[|trace| - 1])
  }

  function Sent(trace: seq<Event>): nat {
    if |trace| == 0 then 0 else Sent(trace[..|trace| - 1]) + if trace[|trace| - 1] == Send then 1 else 0
  }

  function Answered(trace: seq<Event>): nat {
    if |trace| == 0 then 0 else Answered(trace[..|trace| - 1]) + if trace[|trace| - 1] == Send then 0 else 1
  }

  /** No reply comes before its request. */
  ghost predicate IsTrace(trace: seq<Event>) {
    forall n :: 0 <= n <= |trace| ==> Answered(trace[..n]) <= Sent(trace[..n])
  }

  function Fails(trace: seq<Event>): nat {
    if |trace| == 0 then 0 else Fails(trace[..|trace| - 1]) + if trace[|trace| - 1] == Fail then 1 else 0
  }

  lemma {:induction false} LeftIsOpen(trace: seq<Event>)
    ensures After(trace).requestsLeft == Sent(trace) - Answered(trace) + Fails(trace)
  {
    if |trace| > 0 { LeftIsOpen(trace[..|trace| - 1]); }
  }

  lemma {:induction false} FiredGrows(trace: seq<Event>, m: nat, n: nat)
    requires m <= n <= |trace|
    ensures After(trace[..m]).fired <= After(trace[..n]).fired
  {
    if m < n {
      FiredGrows(trace, m, n - 1);
      assert trace[..n][..n - 1] == trace[..n - 1];
    }
  }

  /** Something is open after each of the first events. */
  ghost predicate OpenUntil(trace: seq<Event>, n: nat) {
    forall k :: 0 < k < n && k <= |trace| ==> After(trace[..k]).requestsLeft > 0
  }

  lemma {:induction false} NotFiredWhileOpen(trace: seq<Event>, n: nat)
    requires n <= |trace| && OpenUntil(trace, n + 1)
    ensures After(trace[..n]).fired == 0
  {
    if n > 0 {
      NotFiredWhileOpen(trace, n - 1);
      assert trace[..n][..n - 1] == trace[..n - 1];
      assert After(trace[..n]).requestsLeft > 0;
    }
  }

  /** A trace whose last request was answered, and none failed, ends by running the callback. */
  lemma LastRuns(trace: seq<Event>)
    requires IsTrace(trace) && trace != [] && Answered(trace) == Sent(trace) && Fails(trace) == 0
    ensures After(trace).fired == After(trace[..|trace| - 1]).fired + 1
  {
    var n := |trace| - 1;
    LeftIsOpen(trace);
    LeftIsOpen(trace[..n]);
    assert trace[..|trace|] == trace;
    assert Answered(trace[..n]) <= Sent(trace[..n]);
  }

  /**
    A call sends all its requests in one loop, before any reply is handled, so the condition holds for it; in general,
    when every request succeeds, however sends and replies interleave, the callback runs once exactly if no reply
    settles all that was sent before the last of them.
   */
  lemma OnceIfOpen(trace: seq<Event>)
    requires IsTrace(trace) && trace != [] && Answered(trace) == Sent(trace) && Fails(trace) == 0
    ensures After(trace).fired == 1 <==> OpenUntil(trace, |trace|)
  {
    var n := |trace| - 1;
    LastRuns(trace);
    if OpenUntil(trace, |trace|) {
      NotFiredWhileOpen(trace, n);
    } else {
      var k :| 0 < k < |trace| && After(trace[..k]).requestsLeft <= 0;
      var first := trace[..k];
      FailsGrow(trace, k);
      LeftIsOpen(first);
      assert IsTrace(first) by {
        forall i | 0 <= i <= k ensures Answered(first[..i]) <= Sent(first[..i]) { assert first[..i] == trace[..i]; }
      }
      assert Answered(trace[..k]) <= Sent(trace[..k]);
      LastRuns(first);
      FiredGrows(trace, k, n);
    }
  }

  lemma {:induction false} FailsGrow(trace: seq<Event>, k: nat)
    requires k <= |trace|
    ensures Fails(trace[..k]) <= Fails(trace)
  {
    if k < |trace| {
      FailsGrow(trace[..|trace| - 1], k);
      assert trace[..|trace| - 1][..k] == trace[..k];
    } else {
      assert trace[..k] == trace;
    }
  }

  // ---------- all sends before all replies ----------

  function Sends(n: nat): (r: seq<Event>)
    ensures |r| == n
  {
    seq(n, _ => Send)
  }

  lemma {:induction false} SendsCount(n: nat)
    ensures After(Sends(n)) == Shared(n, 0)
  {
    if n > 0 {
      SendsCount(n - 1);
      assert Sends(n)[..n - 1] == Sends(n - 1);
    }
  }

  function Dones(replies: seq<Event>): (n: nat)
    ensures n <= |replies|
  {
    if |replies| == 0 then 0 else Dones(replies[..|replies| - 1]) + if replies[|replies| - 1] == Done then 1 else 0
  }

  lemma {:induction false} DonesAreAll(replies: seq<Event>)
    ensures Dones(replies) == |replies| <==> forall i :: 0 <= i < |replies| ==> replies[i] == Done
  {
    if |replies| > 0 {
      DonesAreAll(replies[..|replies| - 1]);
      assert forall i :: 0 <= i < |replies| - 1 ==> replies[..|replies| - 1][i] == replies[i];
    }
  }

  lemma {:induction false} RepliesCount(n: nat, replies: seq<Event>)
    requires |replies| <= n && n > 0 && Send !in replies
    ensures After(Sends(n) + replies) == Shared(n - Dones(replies), if Dones(replies) == n then 1 else 0)
  {
    if |replies| == 0 {
      SendsCount(n);
      assert Sends(n) + [] == Sends(n);
    } else {
      var init := replies[..|replies| - 1];
      RepliesCount(n, init);
      assert (Sends(n) + replies)[..n + |init|] == Sends(n) + init;
      assert replies[|replies| - 1] in replies;
    }
  }

  /** When all replies follow all sends, the callback runs once if every batch succeeds and never otherwise. */
  lemma RunsIfAllSucceed(n: nat, replies: seq<Event>)
    requires |replies| <= n && n > 0 && Send !in replies
    ensures After(Sends(n) + replies).fired
            == if |replies| == n && (forall i :: 0 <= i < n ==> replies[i] == Done) then 1 else 0
  {
    RepliesCount(n, replies);
    DonesAreAll(replies);
  }

  // ---------- the whole call ----------

  /**
    The count a call leaves, and what becomes of it: after n sends it is n, and whatever replies then come in whatever
    order, the callback runs once if all n are done and never otherwise.
   */
  ghost predicate CallsBackOnce(n: nat, requestsLeft: int) {
    && After(Sends(n)) == Shared(requestsLeft, 0)
    && forall replies: seq<Event> :: |replies| <= n && Send !in replies ==>
         After(Sends(n) + replies).fired
         == if |replies| == n && (forall i :: 0 <= i < n ==> replies[i] == Done) then 1 else 0
  }

  lemma CountCallsBack(n: nat)
    requires n > 0
    ensures CallsBackOnce(n, n)
  {
    SendsCount(n);
    hide After, Sends;
    forall replies: seq<Event> | |replies| <= n && Send !in replies
      ensures After(Sends(n) + replies).fired
              == if |replies| == n && (forall i :: 0 <= i < n ==> replies[i] == Done) then 1 else 0
    {
      RunsIfAllSucceed(n, replies);
    }
  }

  /**
    forwardMessages on the items in order: with nothing to forward the success callback runs at once; otherwise one
    request goes out for each run of items from the same peer with the same flag, all before any reply is handled, and
    the callback runs once exactly if every one of them is done.
   */
  method ForwardMessages(ordered: seq<Item>, approved: int, price: nat)
    returns (batches: seq<Batch>, requestsLeft: int, starsApproved: int, calledAtOnce: bool)
    ensures calledAtOnce <==> Kept(ordered) == []
    ensures Cuts(BatchParts(batches), Kept(ordered), ByFlagAndPeer) && Labelled(batches)
    ensures PaysInTurn(batches, approved, price) && starsApproved == approved - Paid(batches)
    ensures !calledAtOnce ==> CallsBackOnce(|batches|, requestsLeft)
  {
    var collected := CollectForwardRanges(ordered);
    if collected == [] { return [], 0, approved, true; }
    ghost var items := Kept(ordered);
    assert items != [] by { RangesDiffer(collected, items, 0); ConcatFront(RangeParts(collected)); }
    batches, requestsLeft, starsApproved := ForwardRanges(collected, items, approved, price);
    assert requestsLeft == |batches| && PaysInTurn(batches, approved, price);
    calledAtOnce := false;
    CountCallsBack(|batches|);
  }
}
