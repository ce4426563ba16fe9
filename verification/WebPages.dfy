/**
  Resolving web pages (apiwrap.cpp): pages whose preview is due are looked up through a message that shows them, one
  request for all messages outside channels and one for each channel. While messages are collected a page carries a
  temporary negative number, -1 or -2 minus the index of its channel; a second pass puts the request there.

  Both tables are kept sorted by key, as base::flat_map keeps them, so a channel found later may come earlier. The
  clock, the remaining time of the timer and the messages that show a page are choices of the environment.
 */
module WebPages {
  import opened Wrappers
  import opened Words

  type Page = nat
  type Channel = nat
  type Msg = int

  const INT_MAX := 0x7FFF_FFFF
  const DAY := 86400

  /** An element of _webPagesPending: request 0 is not asked yet. */
  datatype Entry = Entry(page: Page, request: int)

  /** The message found for a page. */
  datatype Found = Found(channel: Option<Channel>, id: Msg)

  /** What resolveWebPages sees of the world. */
  datatype View = View(now: nat, till: map<Page, nat>, items: map<Page, Found>)

  /** A request for messages, and the lookups it was made from. */
  datatype Sent = Sent(channel: Option<Channel>, ids: seq<Msg>, items: map<Page, Found>)

  datatype State = State(
    pending: seq<Entry>, till: map<Page, nat>, failed: set<Page>, timer: Option<int>, next: int,
    inFlight: map<int, Sent>, lost: map<int, Sent>, itemless: set<Page>)

  const INITIAL := State([], map[], {}, None, 1, map[], map[], {})

  function Till(till: map<Page, nat>, p: Page): nat { if p in till then till[p] else 0 }

  // ---------- sorted tables ----------

  function Insert(order: seq<Channel>, c: Channel): seq<Channel> {
    if |order| == 0 || c < order[0] then [c] + order
    else if c == order[0] then order
    else [order[0]] + Insert(order[1..], c)
  }

  function Emplace(entries: seq<Entry>, p: Page): seq<Entry> {
    if |entries| == 0 || p < entries[0].page then [Entry(p, 0)] + entries
    else if p == entries[0].page then entries
    else [entries[0]] + Emplace(entries[1..], p)
  }

  function Without(entries: seq<Entry>, p: Page): seq<Entry> {
    if |entries| == 0 then []
    else Without(entries[..|entries| - 1], p)
         + if entries[|entries| - 1].page == p then [] else [entries[|entries| - 1]]
  }

  function WithoutRequest(entries: seq<Entry>, r: int): seq<Entry> {
    if |entries| == 0 then []
    else WithoutRequest(entries[..|entries| - 1], r)
         + if entries[|entries| - 1].request == r then [] else [entries[|entries| - 1]]
  }

  // ---------- collecting ----------

  /** Not asked yet, its time has come, and a message shows it. */
  predicate Due(e: Entry, v: View) { e.request <= 0 && Till(v.till, e.page) <= v.now && e.page in v.items }

  function Destination(e: Entry, v: View): Option<Channel>
    requires Due(e, v)
  {
    v.items[e.page].channel
  }

  /** The messages to ask for, in order. */
  function Gather(entries: seq<Entry>, v: View, d: Option<Channel>): seq<Msg> {
    if |entries| == 0 then []
    else
      var e := entries[|entries| - 1];
      Gather(entries[..|entries| - 1], v, d) + if Due(e, v) && Destination(e, v) == d then [v.items[e.page].id] else []
  }

  /** The channels in the order they are first met: a channel's index is its place here. */
  function Seen(entries: seq<Entry>, v: View): seq<Channel> {
    if |entries| == 0 then []
    else
      var before, e := Seen(entries[..|entries| - 1], v), entries[|entries| - 1];
      if Due(e, v) && Destination(e, v).Some? && Destination(e, v).value !in before
      then before + [Destination(e, v).value] else before
  }

  /** The channels in the order of their table. */
  function Order(entries: seq<Entry>, v: View): seq<Channel> {
    if |entries| == 0 then []
    else
      var before, e := Order(entries[..|entries| - 1], v), entries[|entries| - 1];
      if Due(e, v) && Destination(e, v).Some? then Insert(before, Destination(e, v).value) else before
  }

  function IndexOf(cs: seq<Channel>, c: Channel): (i: nat)
    ensures i <= |cs| && (i < |cs| <==> c in cs) && (i < |cs| ==> cs[i] == c)
  {
    if |cs| == 0 then 0 else if cs[0] == c then 0 else 1 + IndexOf(cs[1..], c)
  }

  /** Seconds until the first page whose time has not come, at most INT_MAX. */
  function Wait(entries: seq<Entry>, v: View): (m: int)
    ensures m <= INT_MAX
  {
    if |entries| == 0 then INT_MAX
    else
      var before, e := Wait(entries[..|entries| - 1], v), entries[|entries| - 1];
      var left := Till(v.till, e.page) - v.now;
      if e.request <= 0 && left > 0 && left < before then left else before
  }

  // ---------- sending ----------

  function Plain(entries: seq<Entry>, v: View): nat { if Gather(entries, v, None) == [] then 0 else 1 }

  function SendAt(entries: seq<Entry>, v: View, i: nat): Sent
    requires i < Plain(entries, v) + |Order(entries, v)|
  {
    var d := if i < Plain(entries, v) then None else Some(Order(entries, v)[i - Plain(entries, v)]);
    Sent(d, Gather(entries, v, d), v.items)
  }

  /** The first n requests, numbered from base. */
  function Sends(entries: seq<Entry>, v: View, base: int, n: nat): (m: map<int, Sent>)
    requires n <= Plain(entries, v) + |Order(entries, v)|
    ensures forall r :: r in m <==> base <= r < base + n
    ensures forall r :: r in m ==> m[r] == SendAt(entries, v, r - base)
  {
    if n == 0 then map[] else Sends(entries, v, base, n - 1)[base + n - 1 := SendAt(entries, v, n - 1)]
  }

  /** The requests in flight after the first n of a call. */
  function AfterSends(before: map<int, Sent>, entries: seq<Entry>, v: View, base: int, n: nat): map<int, Sent>
    requires n <= Plain(entries, v) + |Order(entries, v)|
  {
    before + Sends(entries, v, base, n)
  }

  /** The request that asks for messages of a channel, or outside channels. */
  function TagFor(entries: seq<Entry>, v: View, base: int, d: Option<Channel>): int {
    match d
    case None => base
    case Some(c) => base + Plain(entries, v) + IndexOf(Order(entries, v), c)
  }

  function Retag(entries: seq<Entry>, v: View, base: int): (r: seq<Entry>)
    ensures |r| == |entries|
  {
    seq(|entries|, k requires 0 <= k < |entries| =>
      if Due(entries[k], v) then entries[k].(request := TagFor(entries, v, base, Destination(entries[k], v)))
      else entries[k])
  }

  function TimerAfter(timer: Option<int>, wait: int): Option<int> {
    if wait < INT_MAX then Some((if wait < DAY then wait else DAY) * 1000) else timer
  }

  /** The pages whose time has come but that no message shows. */
  function Itemless(entries: seq<Entry>, v: View): set<Page> {
    set e | e in entries && e.request <= 0 && Till(v.till, e.page) <= v.now && e.page !in v.items :: e.page
  }

  /** resolveWebPages */
  function Resolve(s: State, v: View): State {
    var n := Plain(s.pending, v) + |Order(s.pending, v)|;
    s.(pending := Retag(s.pending, v, s.next), next := s.next + n,
       inFlight := AfterSends(s.inFlight, s.pending, v, s.next, n), timer := TimerAfter(s.timer, Wait(s.pending, v)),
       itemless := Itemless(s.pending, v))
  }

  // ---------- lemmas about collecting ----------

  ghost predicate Sorted(cs: seq<Channel>) { forall i, j :: 0 <= i < j < |cs| ==> cs[i] < cs[j] }

  lemma {:induction false} InsertSorted(order: seq<Channel>, c: Channel)
    requires Sorted(order)
    ensures Sorted(Insert(order, c))
    ensures forall x :: x in Insert(order, c) <==> x in order || x == c
  {
    if |order| > 0 && c > order[0] {
      InsertSorted(order[1..], c);
      assert order == [order[0]] + order[1..];
      Prepended(order[0], Insert(order[1..], c));
    } else if |order| > 0 && c < order[0] {
      Prepended(c, order);
    }
  }

  lemma Prepended(first: Channel, rest: seq<Channel>)
    requires Sorted(rest) && forall x :: x in rest ==> first < x
    ensures Sorted([first] + rest) && forall x :: x in [first] + rest <==> x == first || x in rest
  {
    var all := [first] + rest;
    forall i, j | 0 <= i < j < |all| ensures all[i] < all[j] { assert all[j] == rest[j - 1] && rest[j - 1] in rest; }
  }

  ghost predicate DueIn(entries: seq<Entry>, v: View, c: Channel) {
    exists k :: 0 <= k < |entries| && Due(entries[k], v) && Destination(entries[k], v) == Some(c)
  }

  lemma {:induction false} OrderHasDue(entries: seq<Entry>, v: View)
    ensures Sorted(Order(entries, v))
    ensures forall c :: c in Order(entries, v) <==> DueIn(entries, v, c)
  {
    if |entries| > 0 {
      var init, e := entries[..|entries| - 1], entries[|entries| - 1];
      OrderHasDue(init, v);
      forall c: Channel
        ensures DueIn(entries, v, c) <==> DueIn(init, v, c) || (Due(e, v) && Destination(e, v) == Some(c))
      {
        if k :| 0 <= k < |init| && Due(init[k], v) && Destination(init[k], v) == Some(c) {
          assert entries[k] == init[k];
        }
      }
      if Due(e, v) && Destination(e, v).Some? { InsertSorted(Order(init, v), Destination(e, v).value); }
    }
  }

  lemma {:induction false} SeenIsOrder(entries: seq<Entry>, v: View)
    ensures forall c :: c in Seen(entries, v) <==> c in Order(entries, v)
    ensures |Seen(entries, v)| == |Order(entries, v)|
    ensures forall i, j :: 0 <= i < j < |Seen(entries, v)| ==> Seen(entries, v)[i] != Seen(entries, v)[j]
  {
    if |entries| > 0 {
      var init, e := entries[..|entries| - 1], entries[|entries| - 1];
      SeenIsOrder(init, v);
      OrderHasDue(init, v);
      if Due(e, v) && Destination(e, v).Some? {
        InsertSorted(Order(init, v), Destination(e, v).value);
        InsertLength(Order(init, v), Destination(e, v).value);
      }
    }
  }

  lemma {:induction false} InsertLength(order: seq<Channel>, c: Channel)
    requires Sorted(order)
    ensures |Insert(order, c)| == |order| + if c in order then 0 else 1
  {
    if |order| > 0 && c > order[0] {
      InsertLength(order[1..], c);
      assert order == [order[0]] + order[1..];
    }
  }

  /** A due page's message is among those asked for at its destination. */
  lemma {:induction false} GatherHasDue(entries: seq<Entry>, v: View, k: nat)
    requires k < |entries| && Due(entries[k], v)
    ensures v.items[entries[k].page].id in Gather(entries, v, Destination(entries[k], v))
  {
    if k < |entries| - 1 { GatherHasDue(entries[..|entries| - 1], v, k); }
  }

  /** The messages of the entries with a request, in order. */
  function Tagged(entries: seq<Entry>, items: map<Page, Found>, r: int): seq<Msg> {
    if |entries| == 0 then []
    else
      var e := entries[|entries| - 1];
      Tagged(entries[..|entries| - 1], items, r)
      + if e.request == r && e.page in items then [items[e.page].id] else []
  }

  ghost predicate Asked(entries: seq<Entry>, v: View, d: Option<Channel>) {
    exists k :: 0 <= k < |entries| && Due(entries[k], v) && Destination(entries[k], v) == d
  }

  lemma AskedPlace(entries: seq<Entry>, v: View, d: Option<Channel>)
    requires Asked(entries, v, d)
    ensures match d case None => Plain(entries, v) == 1 case Some(c) => c in Order(entries, v)
  {
    var k :| 0 <= k < |entries| && Due(entries[k], v) && Destination(entries[k], v) == d;
    GatherHasDue(entries, v, k);
    if d.Some? {
      OrderHasDue(entries, v);
      assert DueIn(entries, v, d.value);
    }
  }

  /** Every destination gets a number of its own, within those handed out. */
  lemma TagsDiffer(entries: seq<Entry>, v: View, base: int, c: Option<Channel>, d: Option<Channel>)
    requires Asked(entries, v, c) && Asked(entries, v, d)
    ensures base <= TagFor(entries, v, base, c) < base + Plain(entries, v) + |Order(entries, v)|
    ensures TagFor(entries, v, base, c) == TagFor(entries, v, base, d) <==> c == d
  {
    AskedPlace(entries, v, c);
    AskedPlace(entries, v, d);
    hide Asked, Order, Gather, Plain, IndexOf;
  }

  lemma TagSends(entries: seq<Entry>, v: View, base: int, c: Option<Channel>)
    requires Asked(entries, v, c)
    ensures base <= TagFor(entries, v, base, c) < base + Plain(entries, v) + |Order(entries, v)|
    ensures SendAt(entries, v, TagFor(entries, v, base, c) - base) == Sent(c, Gather(entries, v, c), v.items)
  {
    hide Asked, Order, Gather, Plain, IndexOf, Due;
    AskedPlace(entries, v, c);
    match c
    case None =>
    case Some(x) =>
      var i := IndexOf(Order(entries, v), x);
      assert Order(entries, v)[i] == x;
      assert TagFor(entries, v, base, c) - base == i + Plain(entries, v);
  }

  lemma {:induction false} GatherIsTagged(entries: seq<Entry>, v: View, base: int, d: Option<Channel>, n: nat)
    requires n <= |entries| && Asked(entries, v, d)
    requires forall k :: 0 <= k < |entries| ==> entries[k].request < base
    ensures Gather(entries[..n], v, d) == Tagged(Retag(entries, v, base)[..n], v.items, TagFor(entries, v, base, d))
  {
    if n > 0 {
      GatherIsTagged(entries, v, base, d, n - 1);
      var e, f := entries[n - 1], Retag(entries, v, base)[n - 1];
      assert entries[..n][..n - 1] == entries[..n - 1];
      assert Retag(entries, v, base)[..n][..n - 1] == Retag(entries, v, base)[..n - 1];
      TagsDiffer(entries, v, base, d, d);
      if Due(e, v) {
        TagsDiffer(entries, v, base, d, Destination(e, v));
      }
      hide TagFor, Order, Plain, Asked;
    }
  }

  /** Every number handed out belongs to a destination that is asked. */
  lemma EachSendIsAsked(entries: seq<Entry>, v: View, base: int, r: int)
    requires base <= r < base + Plain(entries, v) + |Order(entries, v)|
    ensures var d := SendAt(entries, v, r - base).channel; Asked(entries, v, d) && TagFor(entries, v, base, d) == r
  {
    var i := r - base;
    OrderHasDue(entries, v);
    if i < Plain(entries, v) {
      GatherNeedsDue(entries, v, None);
    } else {
      var c := Order(entries, v)[i - Plain(entries, v)];
      assert DueIn(entries, v, c);
      DueIsAsked(entries, v, c);
      hide Order, Gather, DueIn, Asked;
      IndexInSorted(Order(entries, v), i - Plain(entries, v));
    }
  }

  lemma DueIsAsked(entries: seq<Entry>, v: View, c: Channel)
    requires DueIn(entries, v, c)
    ensures Asked(entries, v, Some(c))
  {
  }

  lemma IndexInSorted(order: seq<Channel>, i: nat)
    requires Sorted(order) && i < |order|
    ensures IndexOf(order, order[i]) == i
  {
    hide IndexOf;
    assert order[i] in order;
  }

  lemma {:induction false} GatherNeedsDue(entries: seq<Entry>, v: View, d: Option<Channel>)
    ensures Gather(entries, v, d) != [] <==> Asked(entries, v, d)
  {
    if |entries| > 0 {
      var init, e := entries[..|entries| - 1], entries[|entries| - 1];
      GatherNeedsDue(init, v, d);
      if Asked(init, v, d) {
        var k :| 0 <= k < |init| && Due(init[k], v) && Destination(init[k], v) == d;
        assert entries[k] == init[k];
      }
      if Asked(entries, v, d) {
        var k :| 0 <= k < |entries| && Due(entries[k], v) && Destination(entries[k], v) == d;
        if k < |init| { assert init[k] == entries[k]; }
      }
    }
  }

  ghost predicate Numbered(s: State) {
    forall k :: 0 <= k < |s.pending| ==> 0 <= s.pending[k].request < s.next
  }

  /** An entry names a request whose messages include the one found for its page at that destination. */
  ghost predicate Asks(e: Entry, d: Sent) {
    e.page in d.items && d.items[e.page].channel == d.channel && d.items[e.page].id in d.ids
  }

  lemma SentAt(before: map<int, Sent>, entries: seq<Entry>, v: View, base: int, r: int)
    requires base <= r < base + Plain(entries, v) + |Order(entries, v)|
    ensures var after := AfterSends(before, entries, v, base, Plain(entries, v) + |Order(entries, v)|);
            r in after && after[r] == SendAt(entries, v, r - base)
  {
    hide SendAt, Plain, Order;
  }

  /** The number of a due page is that of a request sent now that asks for its message. */
  lemma TagIsSent(before: map<int, Sent>, entries: seq<Entry>, v: View, base: int, k: nat)
    requires k < |entries| && Due(entries[k], v)
    ensures var n, e := Plain(entries, v) + |Order(entries, v)|, entries[k];
            var tag, after := TagFor(entries, v, base, Destination(e, v)), AfterSends(before, entries, v, base, n);
            && base <= tag < base + n && tag in after && after[tag].items == v.items
            && Asks(e.(request := tag), after[tag])
  {
    hide *;
    var e, d := entries[k], Destination(entries[k], v);
    DueIsFound(entries, v, k);
    TagSends(entries, v, base, d);
    GatherHasDue(entries, v, k);
    SentAt(before, entries, v, base, TagFor(entries, v, base, d));
    AsksAt(e, TagFor(entries, v, base, d), Sent(d, Gather(entries, v, d), v.items));
  }

  lemma DueIsFound(entries: seq<Entry>, v: View, k: nat)
    requires k < |entries| && Due(entries[k], v)
    ensures entries[k].page in v.items && v.items[entries[k].page].channel == Destination(entries[k], v)
    ensures Asked(entries, v, Destination(entries[k], v))
  {
  }

  lemma AsksAt(e: Entry, tag: int, d: Sent)
    requires e.page in d.items && d.items[e.page].channel == d.channel && d.items[e.page].id in d.ids
    ensures Asks(e.(request := tag), d)
  {
  }

  /**
    What one call of resolveWebPages does to an entry: a due page gets the request made in this call that asks for its
    message; every other page keeps its number.
   */
  lemma ResolveTags(s: State, v: View, k: nat)
    requires Numbered(s) && k < |s.pending|
    ensures var e, u := s.pending[k], Resolve(s, v);
            var f := u.pending[k];
            && |u.pending| == |s.pending| && f.page == e.page
            && (!Due(e, v) ==> f == e)
            && (Due(e, v) ==>
                  && s.next <= f.request < u.next && f.request in u.inFlight && u.inFlight[f.request].items == v.items
                  && Asks(f, u.inFlight[f.request]))
  {
    var e := s.pending[k];
    if Due(e, v) { TagIsSent(s.inFlight, s.pending, v, s.next, k); }
    hide Gather, Order, Plain, TagFor, Wait, Due, AfterSends, Asks, Destination;
  }

  lemma ResolveSends(s: State, v: View, r: int)
    requires s.next <= r < Resolve(s, v).next
    ensures r in Resolve(s, v).inFlight && Resolve(s, v).inFlight[r] == SendAt(s.pending, v, r - s.next)
  {
    SentAt(s.inFlight, s.pending, v, s.next, r);
    hide SendAt, Plain, Order, AfterSends, Wait, Retag;
  }

  lemma SendAsks(entries: seq<Entry>, v: View, base: int, r: int)
    requires base <= r < base + Plain(entries, v) + |Order(entries, v)|
    requires forall k :: 0 <= k < |entries| ==> entries[k].request < base
    ensures var sent := SendAt(entries, v, r - base);
            sent.ids != [] && sent.ids == Tagged(Retag(entries, v, base), v.items, r)
  {
    var sent, n := SendAt(entries, v, r - base), |entries|;
    assert sent.ids == Gather(entries, v, sent.channel);
    hide *;
    EachSendIsAsked(entries, v, base, r);
    GatherNeedsDue(entries, v, sent.channel);
    GatherIsTagged(entries, v, base, sent.channel, n);
    assert entries[..n] == entries && Retag(entries, v, base)[..n] == Retag(entries, v, base);
  }

  /** Every request of the call asks for at least one message, and for exactly those of the pages that carry it. */
  lemma ResolveAsks(s: State, v: View, r: int)
    requires Numbered(s) && s.next <= r < Resolve(s, v).next
    ensures var u := Resolve(s, v);
            && r in u.inFlight && u.inFlight[r].ids != []
            && u.inFlight[r].ids == Tagged(u.pending, v.items, r)
  {
    ResolveSends(s, v, r);
    SendAsks(s.pending, v, s.next, r);
    assert Resolve(s, v).pending == Retag(s.pending, v, s.next);
    hide *;
  }

  lemma SendsSplit(entries: seq<Entry>, v: View, base: int, q: int, r: int)
    requires base <= q < r < base + Plain(entries, v) + |Order(entries, v)|
    ensures SendAt(entries, v, q - base).channel != SendAt(entries, v, r - base).channel
  {
    EachSendIsAsked(entries, v, base, q);
    EachSendIsAsked(entries, v, base, r);
  }

  /** No two requests of a call go to the same channel. */
  lemma ResolveSplits(s: State, v: View, q: int, r: int)
    requires s.next <= q < r < Resolve(s, v).next
    ensures q in Resolve(s, v).inFlight && r in Resolve(s, v).inFlight
    ensures Resolve(s, v).inFlight[q].channel != Resolve(s, v).inFlight[r].channel
  {
    SendsSplit(s.pending, v, s.next, q, r);
    ResolveSends(s, v, q);
    ResolveSends(s, v, r);
    hide Resolve;
  }

  // ---------- the other steps ----------

  /** requestWebPageDelayed */
  function Request(s: State, p: Page, now: nat, remaining: int): State {
    if p in s.failed || Till(s.till, p) == 0 then s
    else
      var left := Int32((Till(s.till, p) - now) * 1000);
      s.(pending := Emplace(s.pending, p),
         timer := if s.timer.None? || left <= remaining then Some((if left < 0 then 0 else left) + 1) else s.timer)
  }

  /** The timer a request should leave, with the milliseconds not cut to 32 bits. */
  function ExactTimer(timer: Option<int>, seconds: int, remaining: int): Option<int> {
    if timer.None? || seconds * 1000 <= remaining then Some((if seconds < 0 then 0 else seconds * 1000) + 1) else timer
  }

  /**
    An idle timer is set right exactly if the page is due in at most 2147483 seconds, or is past due by a time whose cut
    is not positive; a running one is handled right whenever the page is due within that many seconds of now.
   */
  lemma DelayIsRight(s: State, p: Page, now: nat, remaining: int)
    requires p !in s.failed && Till(s.till, p) != 0
    ensures var seconds := Till(s.till, p) - now;
            var right := Request(s, p, now, remaining).timer == ExactTimer(s.timer, seconds, remaining);
            && (s.timer.None? ==>
                  (right <==> if seconds < 0 then Int32(seconds * 1000) <= 0 else seconds <= 2147483))
            && (-2147483 <= seconds <= 2147483 ==> right)
  {
  }

  /** A page due in 2147484 seconds is looked up at once. */
  lemma DelayCanBeCut(s: State, p: Page, now: nat)
    requires p !in s.failed && Till(s.till, p) == now + 2147484 && s.timer.None?
    ensures Request(s, p, now, 0).timer == Some(1)
  {
    assert Int32(2147484000) < 0;
  }

  /** clearWebPageRequest */
  function Clear(s: State, p: Page): State {
    var left := Without(s.pending, p);
    s.(pending := left, timer := if left == [] then None else s.timer)
  }

  /** clearWebPageRequests */
  function ClearAll(s: State): State { s.(pending := [], timer := None) }

  /** The page is updated; one that stops being pending is no longer looked up. */
  function Change(s: State, p: Page, till: nat): State {
    (if Till(s.till, p) > 0 && till == 0 then Clear(s, p) else s).(till := s.till[p := till])
  }

  /** The pages still pending that carry a request, taken to have failed when its reply did not change them. */
  function Unresolved(entries: seq<Entry>, till: map<Page, nat>, r: int): set<Page> {
    set e | e in entries && e.request == r && Till(till, e.page) > 0 :: e.page
  }

  function Zeroed(till: map<Page, nat>, gone: set<Page>): map<Page, nat> {
    map p | p in till :: if p in gone then 0 else till[p]
  }

  /** gotWebPages */
  function Got(s: State, r: int): State {
    var gone := Unresolved(s.pending, s.till, r);
    s.(pending := WithoutRequest(s.pending, r), failed := s.failed + gone,
       till := Zeroed(s.till, gone))
  }

  datatype Event =
    | Requested(page: Page, now: nat, remaining: int)
    | Cleared(page: Page)
    | AllCleared
    | Changed(page: Page, till: nat)
    | Tick(view: View)
    | Answer(request: int)
    | Failure(request: int)

  predicate Possible(s: State, e: Event) {
    match e
    case Tick(v) => s.timer.Some? && v.till == s.till && forall p :: p in v.till ==> v.till[p] - v.now < INT_MAX
    case Answer(r) => r in s.inFlight
    case Failure(r) => r in s.inFlight
    case _ => true
  }

  /** Nothing handles a failed request. */
  function Step(s: State, e: Event): State
    requires Possible(s, e)
  {
    match e
    case Requested(p, now, remaining) => Request(s, p, now, remaining)
    case Cleared(p) => Clear(s, p)
    case AllCleared => ClearAll(s)
    case Changed(p, till) => Change(s, p, till)
    case Tick(v) => Resolve(s.(timer := None), v)
    case Answer(r) => Got(s.(inFlight := s.inFlight - {r}), r)
    case Failure(r) => s.(inFlight := s.inFlight - {r}, lost := s.lost[r := s.inFlight[r]])
  }

  // ---------- what every run keeps ----------

  ghost predicate PagesSorted(entries: seq<Entry>) {
    forall i, j :: 0 <= i < j < |entries| ==> entries[i].page < entries[j].page
  }

  ghost predicate RequestsNumbered(s: State) {
    && s.next >= 1
    && (forall r :: r in s.inFlight ==> 1 <= r < s.next && r !in s.lost)
    && (forall r :: r in s.lost ==> 1 <= r < s.next)
  }

  /** A page with a number waits for a request, in flight or failed, that asks for its message. */
  ghost predicate EntryAsked(s: State, e: Entry) {
    || e.request == 0
    || (e.request in s.inFlight && Asks(e, s.inFlight[e.request]))
    || (e.request in s.lost && Asks(e, s.lost[e.request]))
  }

  /** A page without one waits for the timer, unless no message showed it at the last tick. */
  ghost predicate EntryTimed(s: State, e: Entry) { e.request == 0 ==> s.timer.Some? || e.page in s.itemless }

  ghost predicate AllAsked(s: State) { forall e :: e in s.pending ==> EntryAsked(s, e) }

  ghost predicate AllTimed(s: State) { forall e :: e in s.pending ==> EntryTimed(s, e) }

  ghost predicate Inv(s: State) {
    RequestsNumbered(s) && PagesSorted(s.pending) && AllAsked(s) && AllTimed(s)
  }

  lemma PagePrepended(first: Entry, rest: seq<Entry>)
    requires PagesSorted(rest) && forall e :: e in rest ==> first.page < e.page
    ensures PagesSorted([first] + rest) && forall e :: e in [first] + rest <==> e == first || e in rest
  {
    var all := [first] + rest;
    forall i, j | 0 <= i < j < |all| ensures all[i].page < all[j].page {
      assert all[j] == rest[j - 1] && rest[j - 1] in rest;
    }
  }

  lemma {:induction false} EmplaceKeeps(entries: seq<Entry>, p: Page)
    requires PagesSorted(entries)
    ensures PagesSorted(Emplace(entries, p))
    ensures forall e :: e in Emplace(entries, p) <==>
              e in entries || (e == Entry(p, 0) && forall x :: x in entries ==> x.page != p)
  {
    if |entries| > 0 {
      assert entries == [entries[0]] + entries[1..];
      if p > entries[0].page {
        EmplaceKeeps(entries[1..], p);
        PagePrepended(entries[0], Emplace(entries[1..], p));
      } else if p < entries[0].page {
        PagePrepended(Entry(p, 0), entries);
      }
    }
  }

  lemma {:induction false} WithoutKeeps(entries: seq<Entry>, p: Page)
    requires PagesSorted(entries)
    ensures PagesSorted(Without(entries, p))
    ensures forall e :: e in Without(entries, p) <==> e in entries && e.page != p
  {
    if |entries| > 0 {
      assert entries == entries[..|entries| - 1] + [entries[|entries| - 1]];
      WithoutKeeps(entries[..|entries| - 1], p);
    }
  }

  lemma {:induction false} WithoutRequestKeeps(entries: seq<Entry>, r: int)
    requires PagesSorted(entries)
    ensures PagesSorted(WithoutRequest(entries, r))
    ensures forall e :: e in WithoutRequest(entries, r) <==> e in entries && e.request != r
  {
    if |entries| > 0 {
      assert entries == entries[..|entries| - 1] + [entries[|entries| - 1]];
      WithoutRequestKeeps(entries[..|entries| - 1], r);
    }
  }

  lemma NumberedByInv(s: State)
    requires RequestsNumbered(s) && AllAsked(s)
    ensures Numbered(s)
  {
    forall k | 0 <= k < |s.pending| ensures 0 <= s.pending[k].request < s.next { assert EntryAsked(s, s.pending[k]); }
  }

  /** The timer is set again whenever a page's time is still to come. */
  lemma {:induction false} WaitFinds(entries: seq<Entry>, v: View)
    ensures forall e :: e in entries && e.request <= 0 && Till(v.till, e.page) > v.now ==>
              Wait(entries, v) <= Till(v.till, e.page) - v.now
  {
    if |entries| > 0 {
      assert entries == entries[..|entries| - 1] + [entries[|entries| - 1]];
      WaitFinds(entries[..|entries| - 1], v);
    }
  }

  lemma ResolveAllAsked(s: State, v: View)
    requires RequestsNumbered(s) && PagesSorted(s.pending) && AllAsked(s)
    ensures RequestsNumbered(Resolve(s, v)) && AllAsked(Resolve(s, v)) && PagesSorted(Resolve(s, v).pending)
  {
    var u := Resolve(s, v);
    NumberedByInv(s);
    forall k | 0 <= k < |u.pending|
      ensures u.pending[k].page == s.pending[k].page && EntryAsked(u, u.pending[k])
    {
      ResolveTags(s, v, k);
      assert EntryAsked(s, s.pending[k]);
    }
  }

  lemma ResolveAllTimed(s: State, v: View)
    requires RequestsNumbered(s) && AllAsked(s) && v.till == s.till
    requires forall p :: p in v.till ==> v.till[p] - v.now < INT_MAX
    ensures AllTimed(Resolve(s, v))
  {
    var u := Resolve(s, v);
    NumberedByInv(s);
    WaitFinds(s.pending, v);
    forall k | 0 <= k < |u.pending|
      ensures EntryTimed(u, u.pending[k])
    {
      ResolveTags(s, v, k);
      var e := s.pending[k];
      if u.pending[k].request == 0 { assert e == u.pending[k] && e in s.pending; }
    }
  }

  lemma TickKeeps(s: State, v: View)
    requires Inv(s) && Possible(s, Tick(v))
    ensures Inv(Step(s, Tick(v)))
  {
    var u := s.(timer := None);
    assert AllAsked(u) by {
      forall e | e in u.pending ensures EntryAsked(u, e) { assert EntryAsked(s, e); }
    }
    hide AllAsked, AllTimed, Resolve;
    ResolveAllAsked(u, v);
    ResolveAllTimed(u, v);
  }

  lemma RequestKeeps(s: State, p: Page, now: nat, remaining: int)
    requires Inv(s)
    ensures Inv(Request(s, p, now, remaining))
  {
    EmplaceKeeps(s.pending, p);
    var u := Request(s, p, now, remaining);
    hide PagesSorted, Emplace;
    forall e | e in u.pending
      ensures EntryAsked(u, e) && EntryTimed(u, e)
    {
      assert e in s.pending ==> EntryAsked(s, e) && EntryTimed(s, e);
    }
  }

  lemma ClearKeeps(s: State, p: Page)
    requires Inv(s)
    ensures Inv(Clear(s, p))
  {
    WithoutKeeps(s.pending, p);
    var u := Clear(s, p);
    hide PagesSorted, Without;
    forall e | e in u.pending
      ensures EntryAsked(u, e) && EntryTimed(u, e)
    {
      assert EntryAsked(s, e) && EntryTimed(s, e);
    }
  }

  lemma ChangeKeeps(s: State, p: Page, till: nat)
    requires Inv(s)
    ensures Inv(Change(s, p, till))
  {
    ClearKeeps(s, p);
    var was, u := if Till(s.till, p) > 0 && till == 0 then Clear(s, p) else s, Change(s, p, till);
    hide PagesSorted, Clear;
    forall e | e in u.pending
      ensures EntryAsked(u, e) && EntryTimed(u, e)
    {
      assert EntryAsked(was, e) && EntryTimed(was, e);
    }
  }

  lemma AnswerKeeps(s: State, r: int)
    requires Inv(s) && r in s.inFlight
    ensures Inv(Step(s, Answer(r)))
  {
    WithoutRequestKeeps(s.pending, r);
    var u := Step(s, Answer(r));
    hide PagesSorted, WithoutRequest, Unresolved;
    forall e | e in u.pending
      ensures EntryAsked(u, e) && EntryTimed(u, e)
    {
      assert EntryAsked(s, e) && EntryTimed(s, e);
    }
  }

  lemma FailureKeeps(s: State, r: int)
    requires Inv(s) && r in s.inFlight
    ensures Inv(Step(s, Failure(r)))
  {
    var u := Step(s, Failure(r));
    hide PagesSorted;
    forall e | e in u.pending
      ensures EntryAsked(u, e) && EntryTimed(u, e)
    {
      assert EntryAsked(s, e) && EntryTimed(s, e);
    }
  }

  lemma StepKeeps(s: State, e: Event)
    requires Inv(s) && Possible(s, e)
    ensures Inv(Step(s, e))
  {
    match e
    case Requested(p, now, remaining) => hide Inv, Request; RequestKeeps(s, p, now, remaining);
    case Cleared(p) => hide Inv, Clear; ClearKeeps(s, p);
    case AllCleared =>
    case Changed(p, till) => hide Inv, Change; ChangeKeeps(s, p, till);
    case Tick(v) => hide Inv, Resolve; TickKeeps(s, v);
    case Answer(r) => hide Inv, Got; AnswerKeeps(s, r);
    case Failure(r) => hide Inv; FailureKeeps(s, r);
  }

  ghost predicate IsRun(states: seq<State>, events: seq<Event>) {
    && |states| == |events| + 1
    && states[0] == INITIAL
    && forall i :: 0 <= i < |events| ==> Possible(states[i], events[i]) && states[i + 1] == Step(states[i], events[i])
  }

  lemma {:induction false} RunKeeps(states: seq<State>, events: seq<Event>, n: nat)
    requires IsRun(states, events) && n < |states|
    ensures Inv(states[n])
  {
    if n > 0 {
      hide Step, Inv, Possible;
      RunKeeps(states, events, n - 1);
      StepKeeps(states[n - 1], events[n - 1]);
    }
  }

  /**
    In every run, between steps: no temporary number is left; a page with a number waits for a request, in flight or
    failed, that asks for its message at the right destination; and a page without one waits for the timer, unless no
    message showed it when the timer last fired.
   */
  lemma PagesWait(states: seq<State>, events: seq<Event>, n: nat, e: Entry)
    requires IsRun(states, events) && n < |states| && e in states[n].pending
    ensures e.request >= 0 && EntryAsked(states[n], e)
    ensures e.request == 0 ==> states[n].timer.Some? || Unshown(events, n, e.page)
  {
    RunKeeps(states, events, n);
    assert EntryTimed(states[n], e) && EntryAsked(states[n], e);
    if e.page in states[n].itemless { ItemlessAreUnshown(states, events, n, e.page); }
    hide IsRun, Inv;
  }

  /** The last tick found the page's time come and no message that shows it. */
  ghost predicate Unshown(events: seq<Event>, n: nat, p: Page)
    requires n <= |events|
  {
    exists i :: 0 <= i < n && events[i].Tick? && NoneLater(events, i, n)
                && p !in events[i].view.items && Till(events[i].view.till, p) <= events[i].view.now
  }

  ghost predicate NoneLater(events: seq<Event>, i: nat, n: nat)
    requires n <= |events|
  {
    forall k :: i < k < n ==> !events[k].Tick?
  }

  lemma UnshownNext(events: seq<Event>, n: nat, p: Page)
    requires n < |events| && Unshown(events, n, p) && !events[n].Tick?
    ensures Unshown(events, n + 1, p)
  {
    var i :| 0 <= i < n && events[i].Tick? && NoneLater(events, i, n)
             && p !in events[i].view.items && Till(events[i].view.till, p) <= events[i].view.now;
    assert NoneLater(events, i, n + 1);
  }

  lemma StepItemless(s: State, e: Event)
    requires Possible(s, e)
    ensures Step(s, e).itemless == if e.Tick? then Itemless(s.pending, e.view) else s.itemless
  {
    hide Retag, AfterSends, Wait, Unresolved, Zeroed;
  }

  /** A page is set aside only if no message showed it when the timer last fired. */
  lemma {:induction false} ItemlessAreUnshown(states: seq<State>, events: seq<Event>, n: nat, p: Page)
    requires IsRun(states, events) && n < |states| && p in states[n].itemless
    ensures Unshown(events, n, p)
  {
    assert n > 0;
    var s, e := states[n - 1], events[n - 1];
    StepItemless(s, e);
    assert states[n] == Step(s, e);
    if e.Tick? {
      assert NoneLater(events, n - 1, n);
    } else {
      hide Step, Possible;
      ItemlessAreUnshown(states, events, n - 1, p);
      UnshownNext(events, n - 1, p);
    }
  }

  /** The page has not been asked for and its time is to come. */
  predicate Coming(s: State, v: View, e: Entry) { e in s.pending && e.request <= 0 && Till(v.till, e.page) > v.now }

  ghost predicate Nearest(s: State, v: View, e: Entry) {
    Coming(s, v, e) && forall f :: Coming(s, v, f) ==> Till(v.till, e.page) <= Till(v.till, f.page)
  }

  /** In milliseconds, a day at most. */
  function Delay(seconds: int): int { if seconds < DAY then seconds * 1000 else DAY * 1000 }

  lemma {:induction false} WaitIsOne(entries: seq<Entry>, v: View)
    ensures Wait(entries, v) == INT_MAX
            || exists e :: e in entries && e.request <= 0 && Wait(entries, v) == Till(v.till, e.page) - v.now > 0
  {
    if |entries| > 0 {
      assert entries == entries[..|entries| - 1] + [entries[|entries| - 1]];
      WaitIsOne(entries[..|entries| - 1], v);
    }
  }

  /**
    In every run, when the timer fires it is set again exactly if a page not asked for is still to come, to the time of
    the nearest one, but a day at most.
   */
  lemma TicksSetTimer(states: seq<State>, events: seq<Event>, n: nat)
    requires IsRun(states, events) && n < |events| && events[n].Tick?
    ensures var s, u, v := states[n], states[n + 1], events[n].view;
            && (u.timer.Some? <==> exists e :: Coming(s, v, e))
            && (u.timer.Some? ==> exists e :: Nearest(s, v, e) && u.timer == Some(Delay(Till(v.till, e.page) - v.now)))
  {
    var s, u, v := states[n], states[n + 1], events[n].view;
    assert u.timer == TimerAfter(None, Wait(s.pending, v));
    assert forall p :: p in v.till ==> v.till[p] - v.now < INT_MAX;
    hide IsRun, Step, Possible;
    WaitIsOne(s.pending, v);
    WaitFinds(s.pending, v);
    hide Wait;
    if e :| Coming(s, v, e) {
      assert Wait(s.pending, v) <= Till(v.till, e.page) - v.now < INT_MAX;
    }
    if Wait(s.pending, v) < INT_MAX {
      var e :| e in s.pending && e.request <= 0 && Wait(s.pending, v) == Till(v.till, e.page) - v.now > 0;
      assert Nearest(s, v, e);
    }
  }

  /** What every event but a tick does to the pages looked up, and which pages are taken to have failed. */
  lemma PagesComeAndGo(states: seq<State>, events: seq<Event>, n: nat)
    requires IsRun(states, events) && n < |events|
    ensures var s, u := states[n], states[n + 1];
            match events[n]
            case Requested(p, _, _) =>
              if p in s.failed || Till(s.till, p) == 0 then u == s
              else
                && u.timer.Some? && u.failed == s.failed && u.till == s.till
                && forall e :: e in u.pending <==>
                     e in s.pending || (e == Entry(p, 0) && forall x :: x in s.pending ==> x.page != p)
            case Cleared(p) =>
              && (forall e :: e in u.pending <==> e in s.pending && e.page != p)
              && u.timer == (if u.pending == [] then None else s.timer) && u.failed == s.failed && u.till == s.till
            case AllCleared => u.pending == [] && u.timer == None && u.failed == s.failed
            case Changed(p, till) =>
              && u.till == s.till[p := till] && u.failed == s.failed
              && forall e :: e in u.pending <==> e in s.pending && !(e.page == p && Till(s.till, p) > 0 && till == 0)
            case Tick(v) => u.failed == s.failed && u.till == s.till
            case Answer(r) =>
              && u.timer == s.timer
              && (forall p :: p in u.failed <==> p in s.failed || p in Unresolved(s.pending, s.till, r))
              && (forall p :: Till(u.till, p) == if p in Unresolved(s.pending, s.till, r) then 0 else Till(s.till, p))
            case Failure(r) => u.pending == s.pending && u.timer == s.timer && u.failed == s.failed && u.till == s.till
  {
    RunKeeps(states, events, n);
    var s, e := states[n], events[n];
    hide RequestsNumbered, AllAsked, AllTimed;
    match e
    case Requested(p, _, _) => EmplaceKeeps(s.pending, p); hide Emplace, Int32;
    case Cleared(p) => WithoutKeeps(s.pending, p); hide Without;
    case Changed(p, _) => WithoutKeeps(s.pending, p); hide Without;
    case Answer(r) => hide Unresolved, WithoutRequest;
    case Tick(v) => hide Retag, AfterSends, Wait, Itemless;
    case _ =>
  }

  /** An answer takes out exactly the pages that carry its request, failing those its reply left pending. */
  lemma AnswerRemovesItsPages(states: seq<State>, events: seq<Event>, n: nat, r: int)
    requires IsRun(states, events) && n < |events| && events[n] == Answer(r)
    ensures var s, u := states[n], states[n + 1];
            && (forall e :: e in u.pending <==> e in s.pending && e.request != r)
            && (forall e | e in s.pending && e.request == r ::
                  if Till(s.till, e.page) > 0 then e.page in u.failed && Till(u.till, e.page) == 0
                  else e.page in u.failed <==> e.page in s.failed)
  {
    RunKeeps(states, events, n);
    var s, u := states[n], states[n + 1];
    WithoutRequestKeeps(s.pending, r);
    forall e | e in s.pending && e.request == r && Till(s.till, e.page) == 0
      ensures e.page !in Unresolved(s.pending, s.till, r)
    {
    }
  }

  /** The events that stop looking up a page. */
  predicate Forgets(s: State, e: Event, p: Page) {
    match e
    case Cleared(q) => q == p
    case AllCleared => true
    case Changed(q, till) => q == p && Till(s.till, p) > 0 && till == 0
    case _ => false
  }

  /** A page with the number of a failed request keeps it until it is forgotten, and no page gets such a number. */
  lemma LostStays(s: State, ev: Event, e: Entry)
    requires Inv(s) && Possible(s, ev) && e.request in s.lost
    ensures e.request in Step(s, ev).lost
    ensures e in Step(s, ev).pending <==> e in s.pending && !Forgets(s, ev, e.page)
  {
    match ev
    case Requested(p, _, _) => EmplaceKeeps(s.pending, p);
    case Cleared(p) => WithoutKeeps(s.pending, p);
    case AllCleared =>
    case Changed(p, _) => WithoutKeeps(s.pending, p);
    case Tick(v) => LostTicks(s.(timer := None), v, e);
    case Answer(r) => WithoutRequestKeeps(s.pending, r);
    case Failure(r) =>
  }

  lemma LostTicks(s: State, v: View, e: Entry)
    requires RequestsNumbered(s) && AllAsked(s) && e.request in s.lost
    ensures e in Resolve(s, v).pending <==> e in s.pending
  {
    NumberedByInv(s);
    var u := Resolve(s, v);
    if e in s.pending {
      var k :| 0 <= k < |s.pending| && s.pending[k] == e;
      ResolveTags(s, v, k);
      assert u.pending[k] == e;
    }
    if e in u.pending {
      var k :| 0 <= k < |u.pending| && u.pending[k] == e;
      ResolveTags(s, v, k);
      assert s.pending[k] == e;
    }
  }

  ghost predicate Remembered(states: seq<State>, events: seq<Event>, m: nat, n: nat, p: Page)
    requires n <= |events| <= |states|
  {
    forall i :: m <= i < n ==> !Forgets(states[i], events[i], p)
  }

  /**
    After a request failed its pages keep its number exactly until they are cleared, all at once or each, or stop being
    pending, however often they are requested.
   */
  lemma {:induction false} FailedPagesStay(states: seq<State>, events: seq<Event>, m: nat, n: nat, e: Entry)
    requires IsRun(states, events) && m <= n < |states|
    requires e in states[m].pending && e.request in states[m].lost
    ensures e.request in states[n].lost
    ensures e in states[n].pending <==> Remembered(states, events, m, n, e.page)
  {
    if m < n {
      hide Inv, Step, Possible, Forgets;
      FailedPagesStay(states, events, m, n - 1, e);
      RunKeeps(states, events, n - 1);
      LostStays(states[n - 1], events[n - 1], e);
    }
  }

  /** The sight of one pending page, due and shown by a message outside channels. */
  const DUE_PAGE := View(100, map[1 := 100], map[1 := Found(None, 7)])

  lemma DuePageResolves(s: State)
    requires s.pending == [Entry(1, 0)] && s.next == 1 && s.inFlight == map[] && s.till == DUE_PAGE.till
    ensures var u := Resolve(s, DUE_PAGE);
            && u.pending == [Entry(1, 1)] && u.next == 2 && u.inFlight.Keys == {1}
            && u == s.(pending := u.pending, next := 2, inFlight := u.inFlight, timer := s.timer, itemless := {})
  {
    var entries := s.pending;
    assert entries[..0] == [];
    assert Gather(entries, DUE_PAGE, None) == [7] by { assert Gather([], DUE_PAGE, None) == []; }
    assert Order(entries, DUE_PAGE) == [] by { assert Order([], DUE_PAGE) == []; }
    assert Wait(entries, DUE_PAGE) == INT_MAX by { assert Wait([], DUE_PAGE) == INT_MAX; }
    assert Plain(entries, DUE_PAGE) == 1;
    assert Retag(entries, DUE_PAGE, 1) == [Entry(1, 1)];
    assert Itemless(entries, DUE_PAGE) == {};
    hide Gather, Order, Wait, Plain, Retag, Itemless;
    assert forall r :: r in AfterSends(map[], entries, DUE_PAGE, 1, 1) <==> r == 1;
  }

  /** Nothing is due, so nothing is sent. */
  lemma AskedPageResolves(s: State)
    requires s.pending == [Entry(1, 1)] && s.inFlight == map[]
    ensures var u := Resolve(s, DUE_PAGE); u.pending == s.pending && u.inFlight == map[] && u.lost == s.lost
  {
    var entries := s.pending;
    assert entries[..0] == [];
    assert Gather(entries, DUE_PAGE, None) == [] by { assert Gather([], DUE_PAGE, None) == []; }
    assert Order(entries, DUE_PAGE) == [] by { assert Order([], DUE_PAGE) == []; }
    assert Retag(entries, DUE_PAGE, s.next) == entries;
  }

  lemma DuePageRequested(s: State)
    requires s.till == DUE_PAGE.till && s.failed == {} && s.timer == None
    requires s.pending == [] || (|s.pending| == 1 && s.pending[0].page == 1)
    ensures Request(s, 1, 100, 0)
            == s.(pending := if s.pending == [] then [Entry(1, 0)] else s.pending, timer := Some(1))
  {
    assert Int32(0) == 0;
  }

  /** A page whose request failed: it is requested again, the timer fires, and nothing is sent for it. */
  lemma FailedPageIsNotAskedAgain() returns (states: seq<State>, events: seq<Event>)
    ensures events == [Changed(1, 100), Requested(1, 100, 0), Tick(DUE_PAGE), Failure(1), Requested(1, 100, 0),
                       Tick(DUE_PAGE)]
    ensures IsRun(states, events)
    ensures var s := states[6]; s.pending == [Entry(1, 1)] && 1 in s.lost && s.inFlight == map[]
  {
    events := [Changed(1, 100), Requested(1, 100, 0), Tick(DUE_PAGE), Failure(1), Requested(1, 100, 0), Tick(DUE_PAGE)];
    hide Resolve, Request;
    var s1 := Step(INITIAL, events[0]);
    assert s1 == INITIAL.(till := map[1 := 100]);
    var s2 := Step(s1, events[1]);
    DuePageRequested(s1);
    DuePageResolves(s2.(timer := None));
    var s3 := Step(s2, events[2]);
    assert 1 in s3.inFlight by { assert 1 in s3.inFlight.Keys; }
    var s4 := Step(s3, events[3]);
    assert s4.inFlight == map[] && 1 in s4.lost;
    var s5 := Step(s4, events[4]);
    DuePageRequested(s4);
    AskedPageResolves(s5.(timer := None));
    var s6 := Step(s5, events[5]);
    states := [INITIAL, s1, s2, s3, s4, s5, s6];
    forall i | 0 <= i < 6
      ensures Possible(states[i], events[i]) && states[i + 1] == Step(states[i], events[i])
    {
    }
  }

  // ---------- the object ----------

  /** An element of idsByChannel: the channel, its index, and the messages to ask for. */
  datatype ChannelIds = ChannelIds(channel: Channel, index: nat, ids: seq<Msg>)

  /** The table of channels after some of the entries. */
  ghost predicate Collected(table: seq<ChannelIds>, entries: seq<Entry>, v: View) {
    && |table| == |Order(entries, v)|
    && forall j :: 0 <= j < |table| ==>
         && table[j].channel == Order(entries, v)[j]
         && table[j].index == IndexOf(Seen(entries, v), table[j].channel)
         && table[j].ids == Gather(entries, v, Some(table[j].channel))
  }

  ghost predicate HasIndex(table: seq<ChannelIds>, i: int) { exists j :: 0 <= j < |table| && table[j].index == i }

  /**
    The indices are a bijection onto 0..n-1, although the table is sorted by channel: every index is in range, no two
    channels share one, and each index belongs to a channel.
   */
  lemma IndicesAreBijective(table: seq<ChannelIds>, entries: seq<Entry>, v: View)
    requires Collected(table, entries, v)
    ensures forall j :: 0 <= j < |table| ==> table[j].index < |table|
    ensures forall i, j :: 0 <= i < j < |table| ==> table[i].index != table[j].index
    ensures forall i :: 0 <= i < |table| ==> HasIndex(table, i)
  {
    SeenIsOrder(entries, v);
    OrderHasDue(entries, v);
    var seen, order := Seen(entries, v), Order(entries, v);
    forall j | 0 <= j < |table| ensures table[j].index < |table| && seen[table[j].index] == order[j] {
      assert order[j] in order;
    }
    forall i | 0 <= i < |table|
      ensures HasIndex(table, i)
    {
      assert seen[i] in order;
      var j :| 0 <= j < |order| && order[j] == seen[i];
      assert table[j].index == i;
    }
  }

  /** The place of a channel in a sorted table, or where it belongs. */
  method LowerBound(table: seq<ChannelIds>, c: Channel) returns (p: nat)
    ensures p <= |table| && (forall j :: 0 <= j < p ==> table[j].channel < c) && (p < |table| ==> c <= table[p].channel)
  {
    p := 0;
    while p < |table| && table[p].channel < c
      invariant p <= |table| && forall j :: 0 <= j < p ==> table[j].channel < c
    {
      p := p + 1;
    }
  }

  lemma {:induction false} InsertAt(order: seq<Channel>, c: Channel, p: nat)
    requires p <= |order| && (forall j :: 0 <= j < p ==> order[j] < c) && (p < |order| ==> c <= order[p])
    ensures Insert(order, c) == if p < |order| && order[p] == c then order else order[..p] + [c] + order[p..]
  {
    if p > 0 {
      InsertAt(order[1..], c, p - 1);
      assert order == [order[0]] + order[1..];
      assert order[0] < c;
      assert order[..p] == [order[0]] + order[1..][..p - 1];
      assert order[p..] == order[1..][p - 1..];
    }
  }

  lemma {:induction false} IndexOfStable(cs: seq<Channel>, c: Channel, x: Channel)
    ensures x in cs ==> IndexOf(cs + [c], x) == IndexOf(cs, x)
    ensures c !in cs ==> IndexOf(cs + [c], c) == |cs|
  {
    if |cs| > 0 {
      IndexOfStable(cs[1..], c, x);
      assert (cs + [c])[1..] == cs[1..] + [c];
    }
  }

  lemma NewChannel(entries: seq<Entry>, v: View, k: nat, p: nat, c: Channel)
    requires k < |entries| && Due(entries[k], v) && Destination(entries[k], v) == Some(c)
    requires var order := Order(entries[..k], v);
             p <= |order| && (forall j :: 0 <= j < p ==> order[j] < c) && (p < |order| ==> c < order[p])
    ensures var order, seen := Order(entries[..k], v), Seen(entries[..k], v);
            && c !in seen && |seen| == |order|
            && Seen(entries[..k + 1], v) == seen + [c]
            && Order(entries[..k + 1], v) == order[..p] + [c] + order[p..]
  {
    var before, after := entries[..k], entries[..k + 1];
    assert after[..k] == before && after[k] == entries[k];
    OrderHasDue(before, v);
    SeenIsOrder(before, v);
    var order := Order(before, v);
    assert Order(after, v) == Insert(order, c);
    hide Order, Due, Insert;
    InsertAt(order, c, p);
    assert c !in order by {
      forall j | 0 <= j < |order| ensures order[j] != c { if p < j { assert order[p] < order[j]; } }
    }
  }

  lemma GatherNext(entries: seq<Entry>, v: View, k: nat, c: Channel)
    requires k < |entries| && Due(entries[k], v) && Destination(entries[k], v) == Some(c)
    requires c !in Order(entries[..k], v)
    ensures Gather(entries[..k + 1], v, Some(c)) == [v.items[entries[k].page].id]
    ensures forall x :: x != c ==> Gather(entries[..k + 1], v, Some(x)) == Gather(entries[..k], v, Some(x))
  {
    var before, after := entries[..k], entries[..k + 1];
    assert after[..k] == before && after[k] == entries[k];
    OrderHasDue(before, v);
    GatherNeedsDue(before, v, Some(c));
    assert !DueIn(before, v, c) && !Asked(before, v, Some(c));
  }

  /** A row of the table after some of the entries, with the channels met so far in order of meeting. */
  ghost predicate RowFits(row: ChannelIds, seen: seq<Channel>, entries: seq<Entry>, v: View) {
    row.index == IndexOf(seen, row.channel) && row.ids == Gather(entries, v, Some(row.channel))
  }

  /** A new channel leaves the rows of the others as they are. */
  lemma RowStays(row: ChannelIds, entries: seq<Entry>, v: View, k: nat, c: Channel)
    requires k < |entries| && Due(entries[k], v) && Destination(entries[k], v) == Some(c)
    requires c !in Order(entries[..k], v)
    requires RowFits(row, Seen(entries[..k], v), entries[..k], v) && row.channel in Order(entries[..k], v)
    ensures RowFits(row, Seen(entries[..k], v) + [c], entries[..k + 1], v)
  {
    hide IndexOf, Due, Gather, Seen, Order;
    GatherNext(entries, v, k, c);
    SeenIsOrder(entries[..k], v);
    IndexOfStable(Seen(entries[..k], v), c, row.channel);
  }

  lemma RowStarts(entries: seq<Entry>, v: View, k: nat, c: Channel)
    requires k < |entries| && Due(entries[k], v) && Destination(entries[k], v) == Some(c)
    requires c !in Order(entries[..k], v)
    ensures var seen := Seen(entries[..k], v);
            RowFits(ChannelIds(c, |seen|, [v.items[entries[k].page].id]), seen + [c], entries[..k + 1], v)
  {
    hide IndexOf, Due, Gather, Seen, Order;
    GatherNext(entries, v, k, c);
    SeenIsOrder(entries[..k], v);
    IndexOfStable(Seen(entries[..k], v), c, c);
  }

  /** The table is sorted like the channels, and every row fits. */
  lemma CollectedByRows(table: seq<ChannelIds>, entries: seq<Entry>, v: View)
    ensures Collected(table, entries, v)
            <==> |table| == |Order(entries, v)|
                 && (forall j :: 0 <= j < |table| ==> table[j].channel == Order(entries, v)[j])
                 && (forall row :: row in table ==> RowFits(row, Seen(entries, v), entries, v))
  {
    hide IndexOf, Gather, Seen, Order;
    if forall row :: row in table ==> RowFits(row, Seen(entries, v), entries, v) {
      forall j | 0 <= j < |table| ensures RowFits(table[j], Seen(entries, v), entries, v) {}
    }
  }

  /** A row inserted in the table as its channel is in the order. */
  lemma ChannelInserted(table: seq<ChannelIds>, order: seq<Channel>, row: ChannelIds, p: nat)
    requires p <= |table| == |order| && forall j :: 0 <= j < |table| ==> table[j].channel == order[j]
    ensures var u, after := table[..p] + [row] + table[p..], order[..p] + [row.channel] + order[p..];
            |u| == |after| && (forall j :: 0 <= j < |u| ==> u[j].channel == after[j])
            && forall other :: other in u <==> other in table || other == row
  {
    var u := table[..p] + [row] + table[p..];
    assert table == table[..p] + table[p..];
    assert forall other :: other in u <==> other in table[..p] || other == row || other in table[p..];
  }

  /** What a page due at a channel of the table changes: nothing but that channel's list. */
  lemma OldChannel(entries: seq<Entry>, v: View, k: nat, c: Channel)
    requires k < |entries| && Due(entries[k], v) && Destination(entries[k], v) == Some(c) && c in Order(entries[..k], v)
    ensures Seen(entries[..k + 1], v) == Seen(entries[..k], v) && Order(entries[..k + 1], v) == Order(entries[..k], v)
    ensures forall x :: Gather(entries[..k + 1], v, Some(x))
                        == Gather(entries[..k], v, Some(x)) + if x == c then [v.items[entries[k].page].id] else []
  {
    var before, after := entries[..k], entries[..k + 1];
    assert after[..k] == before && after[k] == entries[k];
    OrderHasDue(before, v);
    SeenIsOrder(before, v);
    var order := Order(before, v);
    InsertThere(order, c);
    assert Order(after, v) == Insert(order, c);
  }

  lemma InsertThere(order: seq<Channel>, c: Channel)
    requires Sorted(order) && c in order
    ensures Insert(order, c) == order
  {
    var p :| 0 <= p < |order| && order[p] == c;
    InsertAt(order, c, p);
  }

  /** One more message joins its channel's list. */
  lemma CollectedOld(table: seq<ChannelIds>, entries: seq<Entry>, v: View, k: nat, p: nat)
    requires k < |entries| && Collected(table, entries[..k], v) && Due(entries[k], v)
    requires p < |table| && Destination(entries[k], v) == Some(table[p].channel)
    ensures Seen(entries[..k + 1], v) == Seen(entries[..k], v)
    ensures Collected(table[p := table[p].(ids := table[p].ids + [v.items[entries[k].page].id])], entries[..k + 1], v)
  {
    var c, id := table[p].channel, v.items[entries[k].page].id;
    assert c in Order(entries[..k], v) by { assert Order(entries[..k], v)[p] == c; }
    hide IndexOf, Due, Seen, Order, Gather, Destination;
    OldChannel(entries, v, k, c);
    OrderHasDue(entries[..k], v);
    var u := table[p := table[p].(ids := table[p].ids + [id])];
    forall j | 0 <= j < |u|
      ensures u[j].channel == table[j].channel && u[j].index == table[j].index
              && u[j].ids == Gather(entries[..k + 1], v, Some(u[j].channel))
    {
      assert j != p ==> table[j].channel != c;
    }
  }

  /** A channel met for the first time gets the next index. */
  lemma CollectedNew(table: seq<ChannelIds>, entries: seq<Entry>, v: View, k: nat, p: nat, c: Channel)
    requires k < |entries| && Collected(table, entries[..k], v) && Due(entries[k], v)
    requires Destination(entries[k], v) == Some(c)
    requires p <= |table| && (forall j :: 0 <= j < p ==> table[j].channel < c) && (p < |table| ==> c < table[p].channel)
    ensures Seen(entries[..k + 1], v) == Seen(entries[..k], v) + [c] && |Seen(entries[..k], v)| == |table|
    ensures Collected(table[..p] + [ChannelIds(c, |table|, [v.items[entries[k].page].id])] + table[p..],
          entries[..k + 1], v)
  {
    var before, after := entries[..k], entries[..k + 1];
    var row := ChannelIds(c, |table|, [v.items[entries[k].page].id]);
    var u := table[..p] + [row] + table[p..];
    hide IndexOf, Due, Insert, Seen, Order, Gather, RowFits, Destination;
    CollectedByRows(table, before, v);
    CollectedByRows(u, after, v);
    hide Collected;
    NewChannel(entries, v, k, p, c);
    SeenIsOrder(before, v);
    ChannelInserted(table, Order(before, v), row, p);
    RowStarts(entries, v, k, c);
    forall other | other in table
      ensures RowFits(other, Seen(after, v), after, v)
    {
      var j :| 0 <= j < |table| && table[j] == other;
      RowStays(other, entries, v, k, c);
    }
  }

  /** The number that stands for an index. */
  function Below(index: int): int { -index - 2 }

  /** The page's temporary number. */
  function Temporary(e: Entry, v: View, seen: seq<Channel>): Entry {
    if !Due(e, v) then e
    else e.(request := match Destination(e, v) case None => -1 case Some(c) => Below(IndexOf(seen, c)))
  }

  lemma TemporaryStable(e: Entry, v: View, seen: seq<Channel>, c: Channel)
    requires Due(e, v) && Destination(e, v).Some? ==> Destination(e, v).value in seen
    ensures Temporary(e, v, seen + [c]) == Temporary(e, v, seen)
  {
    if Due(e, v) && Destination(e, v).Some? { IndexOfStable(seen, c, Destination(e, v).value); }
  }

  lemma DueIsSeen(entries: seq<Entry>, v: View, k: nat)
    requires k < |entries| && Due(entries[k], v) && Destination(entries[k], v).Some?
    ensures Destination(entries[k], v).value in Seen(entries, v)
  {
    OrderHasDue(entries, v);
    SeenIsOrder(entries, v);
    assert DueIn(entries, v, Destination(entries[k], v).value);
  }

  /** Later channels do not change the numbers given earlier. */
  lemma TemporariesStay(entries: seq<Entry>, v: View, k: nat)
    requires k < |entries|
    ensures forall i :: 0 <= i < k ==>
              Temporary(entries[i], v, Seen(entries[..k + 1], v)) == Temporary(entries[i], v, Seen(entries[..k], v))
  {
    var before, after := entries[..k], entries[..k + 1];
    assert after[..k] == before && after[k] == entries[k];
    forall i | 0 <= i < k
      ensures Temporary(entries[i], v, Seen(after, v)) == Temporary(entries[i], v, Seen(before, v))
    {
      if Due(entries[i], v) && Destination(entries[i], v).Some? { DueIsSeen(before, v, i); }
      if Due(entries[k], v) && Destination(entries[k], v).Some? {
        TemporaryStable(entries[i], v, Seen(before, v), Destination(entries[k], v).value);
      }
    }
  }

  /** An entry that asks for nothing in a channel leaves the table alone. */
  lemma CollectedSame(table: seq<ChannelIds>, entries: seq<Entry>, v: View, k: nat)
    requires k < |entries| && Collected(table, entries[..k], v)
    requires Due(entries[k], v) ==> Destination(entries[k], v) == None
    ensures Collected(table, entries[..k + 1], v)
  {
    var before, after := entries[..k], entries[..k + 1];
    assert after[..k] == before && after[k] == entries[k];
  }

  /** The message of a due page joins the list of its channel. */
  method CollectInChannel(table: seq<ChannelIds>, channel: Channel, id: Msg,
                          ghost entries: seq<Entry>, ghost v: View, ghost k: nat)
    returns (grown: seq<ChannelIds>, index: nat)
    requires k < |entries| && Collected(table, entries[..k], v) && Due(entries[k], v)
    requires v.items[entries[k].page] == Found(Some(channel), id)
    ensures Collected(grown, entries[..k + 1], v) && index == IndexOf(Seen(entries[..k + 1], v), channel)
  {
    var p := LowerBound(table, channel);
    if p < |table| && table[p].channel == channel {
      CollectedOld(table, entries, v, k, p);
      grown := table[p := table[p].(ids := table[p].ids + [id])];
    } else {
      CollectedNew(table, entries, v, k, p, channel);
      grown := table[..p] + [ChannelIds(channel, |table|, [id])] + table[p..];
    }
    index := grown[p].index;
  }

  lemma TableSends(table: seq<ChannelIds>, entries: seq<Entry>, v: View, j: nat)
    requires Collected(table, entries, v) && j < |table|
    ensures |table| == |Order(entries, v)|
    ensures SendAt(entries, v, Plain(entries, v) + j) == Sent(Some(table[j].channel), table[j].ids, v.items)
  {
  }

  lemma IndexIsNew(table: seq<ChannelIds>, entries: seq<Entry>, v: View, j: nat)
    requires Collected(table, entries, v) && j < |table|
    ensures table[j].index < |table|
    ensures forall i :: 0 <= i < j ==> table[i].index != table[j].index && table[i].index < |table|
  {
    IndicesAreBijective(table, entries, v);
  }

  lemma SendsNext(before: map<int, Sent>, entries: seq<Entry>, v: View, base: int, n: nat)
    requires n < Plain(entries, v) + |Order(entries, v)|
    ensures AfterSends(before, entries, v, base, n + 1)
            == AfterSends(before, entries, v, base, n)[base + n := SendAt(entries, v, n)]
  {
    hide SendAt;
  }

  /** What the second pass finds: -1 stands for the request outside channels, and every other lookup is in range. */
  lemma LookupsAreRight(entries: seq<Entry>, v: View, base: int, table: seq<ChannelIds>, reqs: seq<int>, k: nat)
    requires k < |entries| && Due(entries[k], v) && Collected(table, entries, v)
    requires FoundByIndex(reqs, table, base + Plain(entries, v))
    ensures match Destination(entries[k], v)
            case None => Gather(entries, v, None) != [] && TagFor(entries, v, base, None) == base
            case Some(c) => var i := IndexOf(Seen(entries, v), c);
                            i < |reqs| && reqs[i] == TagFor(entries, v, base, Some(c))
  {
    match Destination(entries[k], v)
    case None => GatherHasDue(entries, v, k);
    case Some(c) =>
      DueIsSeen(entries, v, k);
      SeenIsOrder(entries, v);
      var j := IndexOf(Order(entries, v), c);
      assert table[j].channel == c;
  }

  lemma UnresolvedNext(entries: seq<Entry>, till: map<Page, nat>, r: int, k: nat)
    requires k < |entries|
    ensures var e := entries[k];
            Unresolved(entries[..k + 1], till, r)
            == if e.request == r && Till(till, e.page) > 0 then Unresolved(entries[..k], till, r) + {e.page}
               else Unresolved(entries[..k], till, r)
  {
    assert entries[..k + 1] == entries[..k] + [entries[k]];
  }

  lemma ZeroedNext(till: map<Page, nat>, gone: set<Page>, p: Page)
    ensures Till(Zeroed(till, gone), p) > 0 <==> Till(till, p) > 0 && p !in gone
    ensures Till(till, p) > 0 && p !in gone ==> Zeroed(till, gone)[p := 0] == Zeroed(till, gone + {p})
    ensures p in gone ==> gone + {p} == gone
  {
  }

  lemma NoneVisited(till: map<Page, nat>, r: int)
    ensures WithoutRequest([], r) == [] && Unresolved([], till, r) == {} && Zeroed(till, {}) == till
  {
  }

  /** One turn of the erasing loop: the kept entries, then those not visited. */
  lemma EraseNext(entries: seq<Entry>, r: int, k: nat)
    requires k < |entries|
    ensures var kept, now := WithoutRequest(entries[..k], r), WithoutRequest(entries[..k], r) + entries[k..];
            && now[|kept|] == entries[k]
            && (if entries[k].request == r
                then WithoutRequest(entries[..k + 1], r) == kept
                     && now[..|kept|] + now[|kept| + 1..] == kept + entries[k + 1..]
                else WithoutRequest(entries[..k + 1], r) == kept + [entries[k]]
                     && now == WithoutRequest(entries[..k + 1], r) + entries[k + 1..])
  {
    assert entries[..k + 1][..k] == entries[..k];
  }

  /** The pending table after the first pass has visited k entries. */
  ghost predicate Visited(pending: seq<Entry>, entries: seq<Entry>, v: View, k: nat) {
    && |pending| == |entries| && k <= |entries|
    && (forall i :: k <= i < |entries| ==> pending[i] == entries[i])
    && (forall i :: 0 <= i < k ==> pending[i] == Temporary(entries[i], v, Seen(entries[..k], v)))
  }

  lemma VisitedNext(pending: seq<Entry>, entries: seq<Entry>, v: View, k: nat)
    requires k < |entries| && Visited(pending, entries, v, k)
    ensures pending[k] == entries[k]
    ensures Visited(pending[k := Temporary(entries[k], v, Seen(entries[..k + 1], v))], entries, v, k + 1)
  {
    TemporariesStay(entries, v, k);
    hide Temporary, Seen;
  }

  lemma VisitedAll(pending: seq<Entry>, entries: seq<Entry>, v: View)
    requires Visited(pending, entries, v, |entries|)
    ensures forall k :: 0 <= k < |entries| ==> pending[k] == Temporary(entries[k], v, Seen(entries, v))
  {
    assert entries[..|entries|] == entries;
  }

  /** The requests of the channels, found by their indices. */
  ghost predicate FoundByIndex(reqs: seq<int>, table: seq<ChannelIds>, first: int) {
    && |reqs| == |table|
    && forall j :: 0 <= j < |table| && table[j].index < |table| ==> reqs[table[j].index] == first + j
  }

  ghost predicate FoundSoFar(reqs: seq<int>, table: seq<ChannelIds>, first: int, n: nat) {
    && |reqs| == |table| && n <= |table|
    && forall j :: 0 <= j < n && table[j].index < |table| ==> reqs[table[j].index] == first + j
  }

  lemma TableLength(table: seq<ChannelIds>, entries: seq<Entry>, v: View)
    requires Collected(table, entries, v)
    ensures |table| == |Order(entries, v)|
  {
  }

  lemma NothingFound(reqs: seq<int>, table: seq<ChannelIds>, first: int)
    requires |reqs| == |table|
    ensures FoundSoFar(reqs, table, first, 0)
  {
  }

  lemma AllFound(reqs: seq<int>, table: seq<ChannelIds>, first: int)
    requires FoundSoFar(reqs, table, first, |table|)
    ensures FoundByIndex(reqs, table, first)
  {
  }

  lemma FoundNext(reqs: seq<int>, table: seq<ChannelIds>, entries: seq<Entry>, v: View, first: int, j: nat)
    requires Collected(table, entries, v) && j < |table| && FoundSoFar(reqs, table, first, j)
    ensures |reqs| == |table| && table[j].index < |table|
    ensures FoundSoFar(reqs[table[j].index := first + j], table, first, j + 1)
  {
    IndexIsNew(table, entries, v, j);
  }

  method RemovePage(entries: seq<Entry>, p: Page) returns (kept: seq<Entry>)
    ensures kept == Without(entries, p)
  {
    kept := [];
    for i := 0 to |entries|
      invariant kept == Without(entries[..i], p)
    {
      assert entries[..i + 1][..i] == entries[..i];
      if entries[i].page != p { kept := kept + [entries[i]]; }
    }
    assert entries[..|entries|] == entries;
  }

  lemma TimerSet(timer: Option<int>, m: int)
    ensures TimerAfter(timer, m) == if m < INT_MAX then Some((if m < DAY then m else DAY) * 1000) else timer
  {
  }

  method EmplacePage(entries: seq<Entry>, p: Page) returns (r: seq<Entry>)
    ensures r == Emplace(entries, p)
  {
    var i := 0;
    while i < |entries| && entries[i].page < p
      invariant i <= |entries| && Emplace(entries, p) == entries[..i] + Emplace(entries[i..], p)
    {
      assert entries[i..][1..] == entries[i + 1..];
      i := i + 1;
    }
    r := if i < |entries| && entries[i].page == p then entries else entries[..i] + [Entry(p, 0)] + entries[i..];
  }

  /** ApiWrap, as far as web pages go. */
  class WebPageResolver {
    var webPagesPending: seq<Entry>
    var webPagesTimer: Option<int>
    var till: map<Page, nat>
    var failed: set<Page>
    var nextRequest: int
    var inFlight: map<int, Sent>
    ghost var lost: map<int, Sent>
    ghost var itemless: set<Page>

    ghost function Abs(): State
      reads this
    {
      State(webPagesPending, till, failed, webPagesTimer, nextRequest, inFlight, lost, itemless)
    }

    constructor ()
      ensures Abs() == INITIAL
    {
      webPagesPending, webPagesTimer, till, failed, nextRequest, inFlight := [], None, map[], {}, 1, map[];
      lost, itemless := map[], {};
    }

    /** The first pass of resolveWebPages. */
    method CollectIds(v: View) returns (ids: seq<Msg>, table: seq<ChannelIds>, m: int)
      requires Numbered(Abs())
      modifies this`webPagesPending
      ensures Visited(webPagesPending, old(webPagesPending), v, |old(webPagesPending)|)
      ensures ids == Gather(old(webPagesPending), v, None) && Collected(table, old(webPagesPending), v)
      ensures m == Wait(old(webPagesPending), v)
    {
      ids, table, m := [], [], INT_MAX;
      ghost var entries := webPagesPending;
      for k := 0 to |webPagesPending|
        invariant Visited(webPagesPending, entries, v, k)
        invariant ids == Gather(entries[..k], v, None) && Collected(table, entries[..k], v)
        invariant m == Wait(entries[..k], v)
      {
        VisitedNext(webPagesPending, entries, v, k);
        hide Collected, Order, IndexOf, Seen, Visited;
        assert entries[..k + 1][..k] == entries[..k] && entries[..k + 1][k] == entries[k];
        if !Due(entries[k], v) || Destination(entries[k], v) == None { CollectedSame(table, entries, v, k); }
        var page, requestId := webPagesPending[k].page, webPagesPending[k].request;
        assert webPagesPending[k := entries[k]] == webPagesPending;
        if requestId > 0 { continue; }
        if Till(v.till, page) > v.now {
          if Till(v.till, page) - v.now < m { m := Till(v.till, page) - v.now; }
        } else if page in v.items {
          match v.items[page].channel
          case Some(channel) =>
            var index;
            table, index := CollectInChannel(table, channel, v.items[page].id, entries, v, k);
            webPagesPending := webPagesPending[k := Entry(page, Below(index))];
          case None =>
            ids := ids + [v.items[page].id];
            webPagesPending := webPagesPending[k := Entry(page, -1)];
        }
      }
      assert entries[..|entries|] == entries;
    }

    /** The requests of resolveWebPages, and where each channel's index finds its own. */
    method SendRequests(ids: seq<Msg>, table: seq<ChannelIds>, v: View, ghost entries: seq<Entry>)
      returns (requestId: int, reqsByIndex: seq<int>)
      requires ids == Gather(entries, v, None) && Collected(table, entries, v) && nextRequest >= 1
      modifies this`nextRequest, this`inFlight
      ensures nextRequest == old(nextRequest) + Plain(entries, v) + |Order(entries, v)|
      ensures inFlight
              == AfterSends(old(inFlight), entries, v, old(nextRequest), Plain(entries, v) + |Order(entries, v)|)
      ensures requestId == (if ids == [] then 0 else old(nextRequest))
      ensures FoundByIndex(reqsByIndex, table, old(nextRequest) + Plain(entries, v))
    {
      hide Collected, IndexOf, Seen, Order, Gather;
      requestId := 0;
      if ids != [] {
        requestId := nextRequest;
        inFlight := inFlight[requestId := Sent(None, ids, v.items)];
        nextRequest := nextRequest + 1;
      }
      assert inFlight == AfterSends(old(inFlight), entries, v, old(nextRequest), Plain(entries, v));
      reqsByIndex := SendForChannels(table, v, entries, old(nextRequest), old(inFlight));
    }

    method SendForChannels(table: seq<ChannelIds>, v: View, ghost entries: seq<Entry>, ghost base: int,
                           ghost before: map<int, Sent>)
      returns (reqsByIndex: seq<int>)
      requires Collected(table, entries, v) && nextRequest == base + Plain(entries, v)
      requires inFlight == AfterSends(before, entries, v, base, Plain(entries, v))
      modifies this`nextRequest, this`inFlight
      ensures nextRequest == base + Plain(entries, v) + |Order(entries, v)|
      ensures inFlight == AfterSends(before, entries, v, base, Plain(entries, v) + |Order(entries, v)|)
      ensures FoundByIndex(reqsByIndex, table, base + Plain(entries, v))
    {
      hide *;
      TableLength(table, entries, v);
      reqsByIndex := seq(|table|, _ => 0);
      NothingFound(reqsByIndex, table, base + Plain(entries, v));
      for j := 0 to |table|
        invariant nextRequest == base + Plain(entries, v) + j
        invariant inFlight == AfterSends(before, entries, v, base, Plain(entries, v) + j)
        invariant FoundSoFar(reqsByIndex, table, base + Plain(entries, v), j)
      {
        FoundNext(reqsByIndex, table, entries, v, base + Plain(entries, v), j);
        TableSends(table, entries, v, j);
        SendsNext(before, entries, v, base, Plain(entries, v) + j);
        reqsByIndex := reqsByIndex[table[j].index := nextRequest];
        inFlight := inFlight[nextRequest := Sent(Some(table[j].channel), table[j].ids, v.items)];
        nextRequest := nextRequest + 1;
      }
      AllFound(reqsByIndex, table, base + Plain(entries, v));
    }

    /** The second pass of resolveWebPages. */
    method FillRequests(requestId: int, reqsByIndex: seq<int>, table: seq<ChannelIds>, v: View,
                        ghost entries: seq<Entry>, ghost base: int)
      requires Collected(table, entries, v) && Visited(webPagesPending, entries, v, |entries|)
      requires base >= 1 && forall k :: 0 <= k < |entries| ==> 0 <= entries[k].request < base
      requires requestId == if Gather(entries, v, None) == [] then 0 else base
      requires FoundByIndex(reqsByIndex, table, base + Plain(entries, v))
      modifies this`webPagesPending
      ensures webPagesPending == Retag(entries, v, base)
    {
      assert |reqsByIndex| == |table|;
      VisitedAll(webPagesPending, entries, v);
      hide Collected, IndexOf, Seen, Order, Gather, Plain, TagFor, FoundByIndex, Visited;
      if requestId != 0 || reqsByIndex != [] {
        for k := 0 to |webPagesPending|
          invariant |webPagesPending| == |entries|
          invariant forall i :: 0 <= i < k ==> webPagesPending[i] == Retag(entries, v, base)[i]
          invariant forall i :: k <= i < |entries| ==> webPagesPending[i] == Temporary(entries[i], v, Seen(entries, v))
        {
          if Due(entries[k], v) { LookupsAreRight(entries, v, base, table, reqsByIndex, k); }
          var pendingRequestId := webPagesPending[k].request;
          if pendingRequestId > 0 { continue; }
          if pendingRequestId < 0 {
            if pendingRequestId == -1 {
              webPagesPending := webPagesPending[k := webPagesPending[k].(request := requestId)];
            } else {
              var id := reqsByIndex[-pendingRequestId - 2];
              webPagesPending := webPagesPending[k := webPagesPending[k].(request := id)];
            }
          }
        }
      } else {
        forall k | 0 <= k < |entries|
          ensures webPagesPending[k] == Retag(entries, v, base)[k]
        {
          if Due(entries[k], v) { LookupsAreRight(entries, v, base, table, reqsByIndex, k); }
        }
      }
    }

    method ResolveWebPages(v: View)
      requires Numbered(Abs()) && nextRequest >= 1
      modifies this
      ensures Abs() == Resolve(old(Abs()), v)
    {
      ghost var entries, base := webPagesPending, nextRequest;
      assert forall k :: 0 <= k < |entries| ==> 0 <= entries[k].request < base;
      ghost var u, n := Resolve(Abs(), v), Plain(entries, v) + |Order(entries, v)|;
      assert u == State(Retag(entries, v, base), till, failed, TimerAfter(webPagesTimer, Wait(entries, v)), base + n,
                        AfterSends(inFlight, entries, v, base, n), lost, Itemless(entries, v));
      hide *;
      var ids, table, m := CollectIds(v);
      var requestId, reqsByIndex := SendRequests(ids, table, v, entries);
      FillRequests(requestId, reqsByIndex, table, v, entries, base);
      if m < INT_MAX { webPagesTimer := Some((if m < DAY then m else DAY) * 1000); }
      itemless := Itemless(entries, v);
      assert webPagesTimer == TimerAfter(old(webPagesTimer), Wait(entries, v)) by { TimerSet(old(webPagesTimer), m); }
    }

    method RequestWebPageDelayed(p: Page, now: nat, remaining: int)
      modifies this
      ensures Abs() == Request(old(Abs()), p, now, remaining)
    {
      if p in failed || Till(till, p) == 0 { return; }
      webPagesPending := EmplacePage(webPagesPending, p);
      var left := Int32((Till(till, p) - now) * 1000);
      if webPagesTimer.None? || left <= remaining {
        webPagesTimer := Some((if left < 0 then 0 else left) + 1);
      }
    }

    method ClearWebPageRequest(p: Page)
      modifies this`webPagesPending, this`webPagesTimer
      ensures Abs() == Clear(old(Abs()), p)
    {
      var kept := RemovePage(webPagesPending, p);
      webPagesPending := kept;
      if webPagesPending == [] && webPagesTimer.Some? { webPagesTimer := None; }
    }

    method ClearWebPageRequests()
      modifies this`webPagesPending, this`webPagesTimer
      ensures Abs() == ClearAll(old(Abs()))
    {
      webPagesPending := [];
      webPagesTimer := None;
    }

    /** What the loop does to a page that is still pending. */
    method FailPending(page: Page)
      modifies this`till, this`failed
      ensures till == (if Till(old(till), page) > 0 then old(till)[page := 0] else old(till))
      ensures failed == if Till(old(till), page) > 0 then old(failed) + {page} else old(failed)
    {
      if Till(till, page) > 0 {
        till := till[page := 0];
        failed := failed + {page};
      }
    }

    /** The loop erases in place while it goes. */
    method GotWebPages(r: int)
      modifies this`webPagesPending, this`till, this`failed
      ensures Abs() == Got(old(Abs()), r)
    {
      ghost var entries := webPagesPending;
      hide Unresolved, Zeroed, Till, WithoutRequest;
      var i := 0;
      ghost var k := 0;
      NoneVisited(till, r);
      assert entries[..0] == [];
      while i < |webPagesPending|
        invariant k <= |entries| && i == |WithoutRequest(entries[..k], r)|
        invariant webPagesPending == WithoutRequest(entries[..k], r) + entries[k..]
        invariant till == Zeroed(old(till), Unresolved(entries[..k], old(till), r))
        invariant failed == old(failed) + Unresolved(entries[..k], old(till), r)
        decreases |entries| - k
      {
        var entry := webPagesPending[i];
        EraseNext(entries, r, k);
        UnresolvedNext(entries, old(till), r, k);
        ZeroedNext(old(till), Unresolved(entries[..k], old(till), r), entry.page);
        if entry.request == r {
          FailPending(entry.page);
          webPagesPending := webPagesPending[..i] + webPagesPending[i + 1..];
        } else {
          i := i + 1;
        }
        k := k + 1;
      }
      assert entries[..k] == entries;
    }
  }

}
