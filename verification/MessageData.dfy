/**
  Asking for messages (apiwrap.cpp): messages asked for are collected, in one table outside channels and in one for
  each channel, and asked for by one request a table; when it is answered, all who asked for its messages are called.

  A table is kept sorted by message id, as base::flat_map keeps it. Callbacks are numbered as they come; one that asks
  again while it runs does so after its request was finished, which is a later event here. The order in which the
  channels are visited, that of their addresses, is a choice of the environment.
 */
module MessageData {
  import opened Wrappers

  type Channel = nat
  type Msg = int
  type Callback = nat

  /** MessageDataRequest, with its key: request 0 is not asked yet. */
  datatype Entry = Entry(msg: Msg, requestId: nat, callbacks: seq<Callback>)

  type Table = seq<Entry>

  type Place = Option<Channel>

  datatype Sent = Sent(place: Place, ids: seq<Msg>)

  /** Where a callback waits. */
  datatype Home = Home(place: Place, msg: Msg)

  /** The tables, the scheduled resolve, the requests in flight, and the callbacks: `homes` is history. */
  datatype State = State(
    tables: map<Place, Table>, scheduled: bool, wire: map<nat, Sent>, lastId: nat,
    registered: nat, called: seq<Callback>, homes: map<Callback, Home>)

  const INITIAL := State(map[None := []], false, map[], 0, 0, [], map[])

  // ---------- one table ----------

  /** The entry of a message, made when there is none, gets one more callback or none. */
  function Join(t: Table, msg: Msg, callbacks: seq<Callback>): Table {
    if |t| == 0 || msg < t[0].msg then [Entry(msg, 0, callbacks)] + t
    else if msg == t[0].msg then [t[0].(callbacks := t[0].callbacks + callbacks)] + t[1..]
    else [t[0]] + Join(t[1..], msg, callbacks)
  }

  /** The request of a message's entry, 0 without one. */
  function RequestOf(t: Table, msg: Msg): nat {
    if |t| == 0 then 0 else if t[0].msg == msg then t[0].requestId else RequestOf(t[1..], msg)
  }

  /** collectMessageIds */
  function Untagged(t: Table): seq<Msg> {
    if |t| == 0 then []
    else Untagged(t[..|t| - 1]) + if t[|t| - 1].requestId > 0 then [] else [t[|t| - 1].msg]
  }

  function Tag(t: Table, r: nat): (u: Table)
    ensures |u| == |t|
  {
    seq(|t|, i requires 0 <= i < |t| => if t[i].requestId > 0 then t[i] else t[i].(requestId := r))
  }

  /** The messages that carry a request. */
  function TaggedBy(t: Table, r: nat): seq<Msg> {
    if |t| == 0 then []
    else TaggedBy(t[..|t| - 1], r) + if t[|t| - 1].requestId == r then [t[|t| - 1].msg] else []
  }

  function Without(t: Table, r: nat): Table {
    if |t| == 0 then []
    else Without(t[..|t| - 1], r) + if t[|t| - 1].requestId == r then [] else [t[|t| - 1]]
  }

  /** The callbacks of the messages that carry a request. */
  function CallbacksOf(t: Table, r: nat): seq<Callback> {
    if |t| == 0 then []
    else CallbacksOf(t[..|t| - 1], r) + if t[|t| - 1].requestId == r then t[|t| - 1].callbacks else []
  }

  // ---------- what each function does ----------

  function TableAt(s: State, p: Place): Table { if p in s.tables then s.tables[p] else [] }

  /** requestMessageData */
  function Request(s: State, p: Place, msg: Msg, done: bool): State {
    var t := TableAt(s, p);
    var callbacks := if done then [s.registered] else [];
    s.(tables := s.tables[p := Join(t, msg, callbacks)],
       scheduled := s.scheduled || RequestOf(t, msg) == 0,
       registered := if done then s.registered + 1 else s.registered,
       homes := if done then s.homes[s.registered := Home(p, msg)] else s.homes)
  }

  /** One table's part of resolveMessageDatas. */
  function ResolveOne(s: State, p: Place): State {
    if p !in s.tables then s
    else
      var t := s.tables[p];
      if p.Some? && t == [] then s.(tables := s.tables - {p})
      else if Untagged(t) == [] then s
      else s.(tables := s.tables[p := Tag(t, s.lastId + 1)], lastId := s.lastId + 1,
              wire := s.wire[s.lastId + 1 := Sent(p, Untagged(t))])
  }

  function ResolveAll(s: State, order: seq<Place>): State {
    if |order| == 0 then s else ResolveOne(ResolveAll(s, order[..|order| - 1]), order[|order| - 1])
  }

  /** finalizeMessageDataRequest */
  function Finalize(s: State, p: Place, r: nat): State {
    if p !in s.tables then s
    else
      var t := s.tables[p];
      var left, callbacks := Without(t, r), CallbacksOf(t, r);
      s.(tables := if p.Some? && left == [] then s.tables - {p} else s.tables[p := left],
         called := s.called + callbacks, homes := s.homes - (set c | c in callbacks))
  }

  datatype Event = Requested(place: Place, msg: Msg, done: bool) | Resolve(order: seq<Place>) | Answer(request: nat)

  ghost predicate Enumerates(order: seq<Place>, places: set<Place>) {
    && (forall p :: p in order <==> p in places)
    && (forall i, j :: 0 <= i < j < |order| ==> order[i] != order[j])
  }

  ghost predicate Possible(s: State, e: Event) {
    match e
    case Requested(_, _, _) => true
    case Resolve(order) => s.scheduled && Enumerates(order, s.tables.Keys)
    case Answer(r) => r in s.wire
  }

  /** The scheduled call is unscheduled when it starts; done and failed answers do the same. */
  ghost function Step(s: State, e: Event): State
    requires Possible(s, e)
  {
    match e
    case Requested(p, msg, done) => Request(s, p, msg, done)
    case Resolve(order) => ResolveAll(s.(scheduled := false), order)
    case Answer(r) => Finalize(s.(wire := s.wire - {r}), s.wire[r].place, r)
  }

  // ---------- what every run keeps ----------

  ghost predicate Sorted(t: Table) { forall i, j :: 0 <= i < j < |t| ==> t[i].msg < t[j].msg }

  /** An entry with a number waits for a request of its table, one without for the scheduled call. */
  ghost predicate EntryFits(wire: map<nat, Sent>, waits: bool, p: Place, e: Entry) {
    if e.requestId == 0 then waits
    else e.requestId in wire && wire[e.requestId].place == p
  }

  ghost predicate TableFits(wire: map<nat, Sent>, waits: bool, p: Place, t: Table) {
    Sorted(t) && forall e :: e in t ==> EntryFits(wire, waits, p, e)
  }

  /** Tables still to be visited may hold entries without a number. */
  ghost predicate TablesFit(s: State, todo: set<Place>) {
    None in s.tables && forall p :: p in s.tables ==> TableFits(s.wire, s.scheduled || p in todo, p, s.tables[p])
  }

  /** A request in flight asks for exactly the messages that carry it, of which there is one at least. */
  ghost predicate SentFits(s: State, r: nat)
    requires r in s.wire
  {
    && 0 < r <= s.lastId && s.wire[r].ids != []
    && s.wire[r].ids == TaggedBy(TableAt(s, s.wire[r].place), r)
  }

  ghost predicate WireFits(s: State) { forall r :: r in s.wire ==> SentFits(s, r) }

  // ---------- lemmas about one table ----------

  lemma {:induction false} JoinFits(t: Table, msg: Msg, callbacks: seq<Callback>)
    requires Sorted(t)
    ensures Sorted(Join(t, msg, callbacks))
    ensures forall e :: e in Join(t, msg, callbacks) ==>
              e in t || (e.msg == msg && e.requestId == RequestOf(t, msg))
  {
    if |t| > 0 && msg > t[0].msg {
      JoinFits(t[1..], msg, callbacks);
      JoinDeeper(t, msg, callbacks);
    } else if |t| > 0 && msg < t[0].msg {
      Prepended(Entry(msg, 0, callbacks), t);
      RequestOfLow(t, msg);
    } else if |t| > 0 {
      var head := t[0].(callbacks := t[0].callbacks + callbacks);
      assert t == [t[0]] + t[1..] && forall e :: e in t[1..] ==> head.msg < e.msg;
      Prepended(head, t[1..]);
    }
  }

  lemma JoinDeeper(t: Table, msg: Msg, callbacks: seq<Callback>)
    requires |t| > 0 && Sorted(t) && msg > t[0].msg && Sorted(Join(t[1..], msg, callbacks))
    requires forall e :: e in Join(t[1..], msg, callbacks) ==>
               e in t[1..] || (e.msg == msg && e.requestId == RequestOf(t[1..], msg))
    ensures Sorted(Join(t, msg, callbacks))
    ensures forall e :: e in Join(t, msg, callbacks) ==>
              e in t || (e.msg == msg && e.requestId == RequestOf(t, msg))
  {
    var rest := Join(t[1..], msg, callbacks);
    assert t == [t[0]] + t[1..] && Join(t, msg, callbacks) == [t[0]] + rest
        && RequestOf(t, msg) == RequestOf(t[1..], msg);
    hide Join, RequestOf;
    assert forall e :: e in t[1..] ==> t[0].msg < e.msg;
    Prepended(t[0], rest);
  }

  lemma Prepended(first: Entry, rest: Table)
    requires Sorted(rest) && forall e :: e in rest ==> first.msg < e.msg
    ensures Sorted([first] + rest) && forall e :: e in [first] + rest <==> e == first || e in rest
  {
    var all := [first] + rest;
    forall i, j | 0 <= i < j < |all| ensures all[i].msg < all[j].msg { assert all[j] == rest[j - 1]
        && rest[j - 1] in rest; }
  }

  lemma {:induction false} RequestOfIn(t: Table, msg: Msg)
    requires Sorted(t)
    ensures forall e :: e in t && e.msg == msg ==> RequestOf(t, msg) == e.requestId
    ensures RequestOf(t, msg) != 0 ==> exists e :: e in t && e.msg == msg && e.requestId == RequestOf(t, msg)
  {
    if |t| > 0 {
      assert t == [t[0]] + t[1..];
      if t[0].msg != msg { RequestOfIn(t[1..], msg); }
    }
  }

  lemma {:induction false} RequestOfLow(t: Table, msg: Msg)
    requires Sorted(t) && (t != [] ==> msg < t[0].msg)
    ensures RequestOf(t, msg) == 0
  {
    if |t| > 1 { RequestOfLow(t[1..], msg); }
  }

  lemma {:induction false} TaggedFront(e: Entry, t: Table, r: nat)
    ensures TaggedBy([e] + t, r) == (if e.requestId == r then [e.msg] else []) + TaggedBy(t, r)
  {
    if t == [] {
      assert [e] + t == [e] && [e][..0] == [];
    } else {
      var n := |t| - 1;
      TaggedFront(e, t[..n], r);
      assert ([e] + t)[..n + 1] == [e] + t[..n] && ([e] + t)[n + 1] == t[n];
    }
  }

  /** Joining leaves what carries a request alone. */
  lemma {:induction false} JoinTagged(t: Table, msg: Msg, callbacks: seq<Callback>, r: nat)
    requires r != 0
    ensures TaggedBy(Join(t, msg, callbacks), r) == TaggedBy(t, r)
  {
    if |t| == 0 || msg < t[0].msg {
      TaggedFront(Entry(msg, 0, callbacks), t, r);
    } else {
      assert t == [t[0]] + t[1..];
      TaggedFront(t[0], t[1..], r);
      if msg == t[0].msg {
        TaggedFront(t[0].(callbacks := t[0].callbacks + callbacks), t[1..], r);
      } else {
        TaggedFront(t[0], Join(t[1..], msg, callbacks), r);
        JoinTagged(t[1..], msg, callbacks, r);
      }
    }
  }

  lemma {:induction false} TagTagged(t: Table, r: nat, q: nat)
    requires r > 0 && q > 0 && forall e :: e in t ==> e.requestId != r
    ensures TaggedBy(Tag(t, r), q) == if q == r then Untagged(t) else TaggedBy(t, q)
  {
    if |t| > 0 {
      var n := |t| - 1;
      assert t[n] in t && forall e :: e in t[..n] ==> e in t;
      TagTagged(t[..n], r, q);
      assert Tag(t, r)[..n] == Tag(t[..n], r);
    }
  }

  lemma {:induction false} WithoutTagged(t: Table, r: nat, q: nat)
    ensures TaggedBy(Without(t, r), q) == if q == r then [] else TaggedBy(t, q)
  {
    if |t| > 0 {
      var kept, e := Without(t[..|t| - 1], r), t[|t| - 1];
      WithoutTagged(t[..|t| - 1], r, q);
      assert (kept + [e])[..|kept|] == kept && kept + [] == kept;
    }
  }

  lemma {:induction false} WithoutFits(t: Table, r: nat)
    requires Sorted(t)
    ensures Sorted(Without(t, r))
    ensures forall e :: e in Without(t, r) <==> e in t && e.requestId != r
  {
    if |t| > 0 {
      assert t == t[..|t| - 1] + [t[|t| - 1]];
      WithoutFits(t[..|t| - 1], r);
    }
  }

  lemma {:induction false} UntaggedIn(t: Table)
    ensures Untagged(t) == [] <==> forall e :: e in t ==> e.requestId > 0
  {
    if |t| > 0 {
      UntaggedIn(t[..|t| - 1]);
      assert t == t[..|t| - 1] + [t[|t| - 1]];
      assert t[|t| - 1] in t && forall e :: e in t[..|t| - 1] ==> e in t;
    }
  }

  // ---------- tables and requests along the steps ----------

  lemma JoinedFits(wire: map<nat, Sent>, waits: bool, p: Place, t: Table, msg: Msg, callbacks: seq<Callback>)
    requires TableFits(wire, waits, p, t)
    ensures TableFits(wire, waits || RequestOf(t, msg) == 0, p, Join(t, msg, callbacks))
  {
    JoinFits(t, msg, callbacks);
    RequestOfIn(t, msg);
    hide Join, RequestOf, Sorted;
    forall e | e in Join(t, msg, callbacks)
      ensures EntryFits(wire, waits || RequestOf(t, msg) == 0, p, e)
    {
      assert e in t ==> EntryFits(wire, waits, p, e);
      if e !in t && e.requestId != 0 {
        var x :| x in t && x.msg == msg && x.requestId == e.requestId;
        assert EntryFits(wire, waits, p, x);
      }
    }
  }

  lemma WaitsFits(wire: map<nat, Sent>, waits: bool, p: Place, t: Table)
    requires TableFits(wire, waits, p, t)
    ensures TableFits(wire, true, p, t)
  {
    forall e | e in t ensures EntryFits(wire, true, p, e) { assert EntryFits(wire, waits, p, e); }
  }

  lemma RequestTables(s: State, p: Place, msg: Msg, done: bool)
    requires TablesFit(s, {})
    ensures TablesFit(Request(s, p, msg, done), {})
  {
    var u, t := Request(s, p, msg, done), TableAt(s, p);
    assert p !in s.tables ==> t == [] && TableFits(s.wire, s.scheduled, p, []);
    hide TableFits, Join, RequestOf;
    forall q | q in u.tables
      ensures TableFits(u.wire, u.scheduled, q, u.tables[q])
    {
      if q == p {
        JoinedFits(s.wire, s.scheduled, p, t, msg, if done then [s.registered] else []);
      } else {
        assert TableFits(s.wire, s.scheduled || q in {}, q, s.tables[q]);
        WaitsFits(s.wire, s.scheduled, q, s.tables[q]);
      }
    }
  }

  lemma RequestWire(s: State, p: Place, msg: Msg, done: bool)
    requires WireFits(s)
    ensures WireFits(Request(s, p, msg, done))
  {
    var u := Request(s, p, msg, done);
    forall r | r in u.wire
      ensures SentFits(u, r)
    {
      assert SentFits(s, r);
      JoinTagged(TableAt(s, p), msg, if done then [s.registered] else [], r);
    }
  }

  /** A table fits as well with one more request of its own or another place. */
  lemma MoreWireFits(wire: map<nat, Sent>, id: nat, d: Sent, waits: bool, p: Place, t: Table)
    requires TableFits(wire, waits, p, t) && id !in wire
    ensures TableFits(wire[id := d], waits, p, t)
  {
    forall e | e in t ensures EntryFits(wire[id := d], waits, p, e) { assert EntryFits(wire, waits, p, e); }
  }

  /** A visited table has no entry without a number any more. */
  lemma TagFits(wire: map<nat, Sent>, id: nat, d: Sent, p: Place, t: Table)
    requires TableFits(wire, true, p, t) && id !in wire && id > 0 && d.place == p
    ensures TableFits(wire[id := d], false, p, Tag(t, id))
  {
    var u := Tag(t, id);
    forall e | e in u
      ensures EntryFits(wire[id := d], false, p, e)
    {
      var i :| 0 <= i < |u| && u[i] == e;
      assert EntryFits(wire, true, p, t[i]);
    }
  }

  lemma AllTaggedFits(wire: map<nat, Sent>, p: Place, t: Table)
    requires TableFits(wire, true, p, t) && Untagged(t) == []
    ensures TableFits(wire, false, p, t)
  {
    UntaggedIn(t);
    forall e | e in t ensures EntryFits(wire, false, p, e) { assert EntryFits(wire, true, p, e); }
  }

  lemma ResolveTables(s: State, p: Place, todo: set<Place>)
    requires TablesFit(s, todo) && WireFits(s) && p in todo && !s.scheduled
    ensures TablesFit(ResolveOne(s, p), todo - {p}) && !ResolveOne(s, p).scheduled
  {
    var u, id := ResolveOne(s, p), s.lastId + 1;
    assert id !in s.wire by { assert id in s.wire ==> SentFits(s, id); }
    hide WireFits, TableFits;
    forall q | q in u.tables
      ensures TableFits(u.wire, q in todo - {p}, q, u.tables[q])
    {
      assert TableFits(s.wire, q in todo, q, s.tables[q]);
      if q == p {
        if Untagged(s.tables[p]) == [] { AllTaggedFits(s.wire, p, s.tables[p]); }
        else { TagFits(s.wire, id, Sent(p, Untagged(s.tables[p])), p, s.tables[p]); }
      } else if p in s.tables {
        MoreWireFits(s.wire, id, Sent(p, Untagged(s.tables[p])), q in todo, q, s.tables[q]);
      }
    }
  }

  lemma NewRequestUnseen(s: State, p: Place, todo: set<Place>)
    requires TablesFit(s, todo) && WireFits(s) && p in s.tables
    ensures forall e :: e in s.tables[p] ==> e.requestId != s.lastId + 1
  {
    assert TableFits(s.wire, s.scheduled || p in todo, p, s.tables[p]);
    forall e | e in s.tables[p]
      ensures e.requestId != s.lastId + 1
    {
      assert EntryFits(s.wire, s.scheduled || p in todo, p, e);
      assert e.requestId in s.wire ==> SentFits(s, e.requestId);
    }
  }

  lemma ResolveSent(s: State, p: Place, todo: set<Place>, r: nat)
    requires TablesFit(s, todo) && WireFits(s) && r in s.wire
    ensures r in ResolveOne(s, p).wire && SentFits(ResolveOne(s, p), r)
  {
    hide Tag, Untagged, TaggedBy, TableFits;
    var u, id, q := ResolveOne(s, p), s.lastId + 1, s.wire[r].place;
    assert SentFits(s, r) && r != id;
    assert TableAt(u, q) == TableAt(s, q) || (q == p && p in s.tables && TableAt(u, q) == Tag(s.tables[p], id));
    assert r in u.wire && u.wire[r] == s.wire[r] && u.lastId >= s.lastId;
    if q == p && p in s.tables {
      NewRequestUnseen(s, p, todo);
      hide ResolveOne, WireFits, TablesFit;
      TagTagged(s.tables[p], id, r);
    }
    hide ResolveOne, WireFits, TablesFit, TaggedBy;
  }

  lemma ResolveWire(s: State, p: Place, todo: set<Place>)
    requires TablesFit(s, todo) && WireFits(s)
    ensures WireFits(ResolveOne(s, p))
  {
    var u, id := ResolveOne(s, p), s.lastId + 1;
    forall r | r in s.wire ensures r in u.wire && SentFits(u, r) { ResolveSent(s, p, todo, r); }
    if id in u.wire && id !in s.wire {
      NewRequestUnseen(s, p, todo);
      TagTagged(s.tables[p], id, id);
      hide TablesFit, WireFits, Untagged, TaggedBy;
      assert SentFits(u, id);
    }
    hide SentFits;
  }

  /** A table without the entries of a request, or that had none, fits what is in flight without it. */
  lemma FinalizeTable(wire: map<nat, Sent>, waits: bool, q: Place, t: Table, r: nat)
    requires TableFits(wire, waits, q, t) && r in wire
    ensures TableFits(wire - {r}, waits, q, if q == wire[r].place then Without(t, r) else t)
  {
    WithoutFits(t, r);
  }

  lemma FinalizeTables(s: State, r: nat)
    requires TablesFit(s, {}) && WireFits(s) && r in s.wire
    ensures TablesFit(Finalize(s.(wire := s.wire - {r}), s.wire[r].place, r), {})
  {
    var p := s.wire[r].place;
    var u := Finalize(s.(wire := s.wire - {r}), p, r);
    assert p in s.tables by { assert SentFits(s, r); }
    hide TableFits, Without, CallbacksOf;
    forall q | q in u.tables
      ensures TableFits(u.wire, u.scheduled, q, u.tables[q])
    {
      FinalizeTable(s.wire, s.scheduled, q, s.tables[q], r);
    }
  }


  lemma FinalizeWire(s: State, r: nat)
    requires WireFits(s) && r in s.wire
    ensures WireFits(Finalize(s.(wire := s.wire - {r}), s.wire[r].place, r))
  {
    var p := s.wire[r].place;
    var u := Finalize(s.(wire := s.wire - {r}), p, r);
    forall q | q in u.wire
      ensures SentFits(u, q)
    {
      assert SentFits(s, q);
      if p in s.tables { WithoutTagged(s.tables[p], r, q); }
      assert TaggedBy([], q) == [];
    }
  }

  // ---------- callbacks ----------

  ghost predicate Distinct(cs: seq<Callback>) { forall i, j :: 0 <= i < j < |cs| ==> cs[i] != cs[j] }

  ghost predicate Holds(t: Table, msg: Msg, c: Callback) { exists e :: e in t && e.msg == msg && c in e.callbacks }

  ghost predicate ListsDistinct(t: Table) { forall e :: e in t ==> Distinct(e.callbacks) }

  /** A callback waits exactly where its home says. */
  ghost predicate AtHome(t: Table, p: Place, homes: map<Callback, Home>) {
    forall msg, c :: Holds(t, msg, c) <==> c in homes && homes[c] == Home(p, msg)
  }

  ghost predicate HomesFit(s: State) {
    && (forall p :: AtHome(TableAt(s, p), p, s.homes))
    && (forall p :: p in s.tables ==> ListsDistinct(s.tables[p]))
  }

  /** Every callback waits or was called, once. */
  ghost predicate CallsFit(s: State) {
    && Distinct(s.called)
    && (forall c: Callback :: c < s.registered <==> c in s.homes || c in s.called)
    && (forall c: Callback :: !(c in s.homes && c in s.called))
  }

  lemma HoldsFront(e: Entry, t: Table, m: Msg, c: Callback)
    ensures Holds([e] + t, m, c) <==> (e.msg == m && c in e.callbacks) || Holds(t, m, c)
  {
    var all := [e] + t;
    assert all[0] == e && forall x :: x in all <==> x == e || x in t;
  }

  lemma {:induction false} JoinHolds(t: Table, msg: Msg, callbacks: seq<Callback>, m: Msg, c: Callback)
    ensures Holds(Join(t, msg, callbacks), m, c) <==> Holds(t, m, c) || (m == msg && c in callbacks)
  {
    if |t| == 0 || msg < t[0].msg {
      HoldsFront(Entry(msg, 0, callbacks), t, m, c);
    } else {
      assert t == [t[0]] + t[1..];
      HoldsFront(t[0], t[1..], m, c);
      if msg == t[0].msg {
        HoldsFront(t[0].(callbacks := t[0].callbacks + callbacks), t[1..], m, c);
      } else {
        JoinHolds(t[1..], msg, callbacks, m, c);
        HoldsFront(t[0], Join(t[1..], msg, callbacks), m, c);
      }
    }
  }

  lemma {:induction false} JoinDistinct(t: Table, msg: Msg, callbacks: seq<Callback>)
    requires ListsDistinct(t) && Distinct(callbacks) && forall c :: c in callbacks ==> !Holds(t, msg, c)
    ensures ListsDistinct(Join(t, msg, callbacks))
  {
    if |t| > 0 && msg >= t[0].msg {
      assert t == [t[0]] + t[1..];
      forall c | c in callbacks
        ensures !Holds(t[1..], msg, c) && (t[0].msg == msg ==> c !in t[0].callbacks)
      {
        HoldsFront(t[0], t[1..], msg, c);
      }
      if msg == t[0].msg { DistinctConcat(t[0].callbacks, callbacks); } else { JoinDistinct(t[1..], msg, callbacks); }
    }
  }

  lemma DistinctConcat(a: seq<Callback>, b: seq<Callback>)
    requires Distinct(a) && Distinct(b) && forall c :: c in b ==> c !in a
    ensures Distinct(a + b)
  {
    var all := a + b;
    forall i, j | 0 <= i < j < |all|
      ensures all[i] != all[j]
    {
      if i < |a| <= j { assert a[i] in a && b[j - |a|] in b; }
    }
  }

  lemma TagHolds(t: Table, r: nat, m: Msg, c: Callback)
    ensures Holds(Tag(t, r), m, c) <==> Holds(t, m, c)
  {
    var u := Tag(t, r);
    assert forall i :: 0 <= i < |t| ==> u[i].msg == t[i].msg && u[i].callbacks == t[i].callbacks;
    if Holds(t, m, c) {
      var i :| 0 <= i < |t| && t[i].msg == m && c in t[i].callbacks;
      assert u[i] in u;
    }
    if Holds(u, m, c) {
      var i :| 0 <= i < |u| && u[i].msg == m && c in u[i].callbacks;
      assert t[i] in t;
    }
  }

  lemma TagDistinct(t: Table, r: nat)
    requires ListsDistinct(t)
    ensures ListsDistinct(Tag(t, r))
  {
    var u := Tag(t, r);
    forall e | e in u ensures Distinct(e.callbacks) {
      var i :| 0 <= i < |u| && u[i] == e;
      assert t[i] in t;
    }
  }

  lemma WithoutHolds(t: Table, r: nat, m: Msg, c: Callback)
    requires Sorted(t)
    ensures Holds(Without(t, r), m, c) <==> Holds(t, m, c) && RequestOf(t, m) != r
  {
    WithoutFits(t, r);
    RequestOfIn(t, m);
  }

  lemma {:induction false} CallbacksHeld(t: Table, r: nat, c: Callback)
    ensures c in CallbacksOf(t, r) <==> exists e :: e in t && e.requestId == r && c in e.callbacks
  {
    if |t| > 0 {
      var n := |t| - 1;
      CallbacksHeld(t[..n], r, c);
      assert t == t[..n] + [t[n]];
    }
  }

  /** When no callback is in two lists, those of a request are all different. */
  lemma {:induction false} CallbacksDistinct(t: Table, r: nat)
    requires Sorted(t) && ListsDistinct(t)
    requires forall m, k, c :: Holds(t, m, c) && Holds(t, k, c) ==> m == k
    ensures Distinct(CallbacksOf(t, r))
  {
    if |t| > 0 {
      var n := |t| - 1;
      var init := t[..n];
      assert t == init + [t[n]];
      forall m, c | Holds(init, m, c) ensures Holds(t, m, c) { }
      CallbacksDistinct(init, r);
      forall c | c in t[n].callbacks
        ensures c !in CallbacksOf(init, r)
      {
        CallbacksHeld(init, r, c);
        assert Holds(t, t[n].msg, c);
        forall e | e in init && c in e.callbacks ensures false {
          assert Holds(t, e.msg, c);
        }
      }
      DistinctConcat(CallbacksOf(init, r), t[n].callbacks);
    }
  }

  // ---------- callbacks along the steps ----------

  lemma RequestHomes(s: State, p: Place, msg: Msg, done: bool)
    requires HomesFit(s) && CallsFit(s)
    ensures HomesFit(Request(s, p, msg, done)) && CallsFit(Request(s, p, msg, done))
  {
    var u, t, c := Request(s, p, msg, done), TableAt(s, p), s.registered;
    var callbacks := if done then [c] else [];
    assert AtHome(t, p, s.homes) && c !in s.homes;
    forall q
      ensures AtHome(TableAt(u, q), q, u.homes)
    {
      assert AtHome(TableAt(s, q), q, s.homes);
      forall m, d { JoinHolds(t, msg, callbacks, m, d); }
    }
    assert ListsDistinct(t);
    hide AtHome;
    assert !Holds(t, msg, c) by { NotHome(t, p, s.homes, msg, c); }
    JoinDistinct(t, msg, callbacks);
  }

  lemma NotHome(t: Table, p: Place, homes: map<Callback, Home>, msg: Msg, c: Callback)
    requires AtHome(t, p, homes) && c !in homes
    ensures !Holds(t, msg, c)
  {
  }

  lemma TagAtHome(t: Table, r: nat, p: Place, homes: map<Callback, Home>)
    requires AtHome(t, p, homes)
    ensures AtHome(Tag(t, r), p, homes)
  {
    forall msg, c ensures Holds(Tag(t, r), msg, c) <==> Holds(t, msg, c) { TagHolds(t, r, msg, c); }
  }

  lemma ResolveHomes(s: State, p: Place)
    requires HomesFit(s)
    ensures HomesFit(ResolveOne(s, p))
  {
    var u := ResolveOne(s, p);
    hide AtHome;
    forall q
      ensures AtHome(TableAt(u, q), q, u.homes)
    {
      assert AtHome(TableAt(s, q), q, s.homes);
      TagAtHome(TableAt(s, q), s.lastId + 1, q, s.homes);
    }
    TagDistinct(TableAt(s, p), s.lastId + 1);
  }

  /** The callbacks of a request are those at home with its messages. */
  lemma CallbacksAtHome(t: Table, p: Place, homes: map<Callback, Home>, r: nat, c: Callback)
    requires Sorted(t) && AtHome(t, p, homes) && r > 0
    ensures c in CallbacksOf(t, r) <==> c in homes && homes[c].place == p && RequestOf(t, homes[c].msg) == r
  {
    CallbacksHeld(t, r, c);
    if c in CallbacksOf(t, r) {
      var e :| e in t && e.requestId == r && c in e.callbacks;
      assert Holds(t, e.msg, c);
      RequestOfIn(t, e.msg);
    }
    if c in homes && homes[c].place == p {
      var msg := homes[c].msg;
      assert Holds(t, msg, c);
      RequestOfIn(t, msg);
    }
  }

  lemma FinalizeCalls(s: State, p: Place, r: nat)
    requires HomesFit(s) && CallsFit(s) && r > 0 && p in s.tables && Sorted(s.tables[p])
    ensures CallsFit(Finalize(s, p, r))
  {
    var t, u := s.tables[p], Finalize(s, p, r);
    assert AtHome(t, p, s.homes) by { assert TableAt(s, p) == t; }
    forall c { CallbacksAtHome(t, p, s.homes, r, c); }
    CallbacksDistinct(t, r);
    hide HomesFit, AtHome;
    DistinctConcat(s.called, CallbacksOf(t, r));
  }

  lemma FinalizeHomesAt(s: State, p: Place, r: nat, q: Place)
    requires HomesFit(s) && r > 0 && p in s.tables && Sorted(s.tables[p])
    ensures AtHome(TableAt(Finalize(s, p, r), q), q, Finalize(s, p, r).homes)
  {
    var t, u := s.tables[p], Finalize(s, p, r);
    assert TableAt(s, p) == t && AtHome(t, p, s.homes) && AtHome(TableAt(s, q), q, s.homes);
    assert TableAt(u, q) == if q == p then Without(t, r) else TableAt(s, q);
    hide HomesFit, TableAt;
    forall msg, c
      ensures Holds(TableAt(u, q), msg, c) <==> c in u.homes && u.homes[c] == Home(q, msg)
    {
      WithoutHolds(t, r, msg, c);
      CallbacksAtHome(t, p, s.homes, r, c);
    }
  }

  lemma FinalizeHomes(s: State, p: Place, r: nat)
    requires HomesFit(s) && r > 0 && p in s.tables && Sorted(s.tables[p])
    ensures HomesFit(Finalize(s, p, r))
  {
    WithoutFits(s.tables[p], r);
    forall q { FinalizeHomesAt(s, p, r, q); }
    hide AtHome;
  }

  // ---------- runs ----------

  ghost predicate Kept(s: State, todo: set<Place>) {
    TablesFit(s, todo) && WireFits(s) && HomesFit(s) && CallsFit(s)
  }

  ghost predicate Inv(s: State) { Kept(s, {}) }

  lemma ResolveOneKeeps(s: State, p: Place, todo: set<Place>)
    requires Kept(s, todo) && p in todo && !s.scheduled
    ensures Kept(ResolveOne(s, p), todo - {p}) && !ResolveOne(s, p).scheduled
  {
    ResolveTables(s, p, todo);
    ResolveWire(s, p, todo);
    ResolveHomes(s, p);
    hide TablesFit, WireFits, HomesFit;
  }

  lemma {:induction false} ResolveAllKeeps(s: State, order: seq<Place>, todo: set<Place>)
    requires Kept(s, todo) && !s.scheduled && (forall p :: p in order ==> p in todo)
    requires forall i, j :: 0 <= i < j < |order| ==> order[i] != order[j]
    ensures Kept(ResolveAll(s, order), todo - (set p | p in order)) && !ResolveAll(s, order).scheduled
  {
    hide Kept, ResolveOne;
    if |order| == 0 {
      assert todo - (set p | p in order) == todo;
    } else {
      var n := |order| - 1;
      var init, last := order[..n], order[n];
      assert order == init + [last];
      ResolveAllKeeps(s, init, todo);
      ResolveOneKeeps(ResolveAll(s, init), last, todo - (set p | p in init));
      assert todo - (set p | p in order) == todo - (set p | p in init) - {last};
    }
  }

  lemma ResolveKeeps(s: State, order: seq<Place>)
    requires Inv(s) && Enumerates(order, s.tables.Keys)
    ensures Inv(ResolveAll(s.(scheduled := false), order))
  {
    var u, todo := s.(scheduled := false), s.tables.Keys;
    assert TablesFit(u, todo) by {
      hide WireFits, HomesFit, CallsFit;
      forall p | p in u.tables
        ensures TableFits(u.wire, p in todo, p, u.tables[p])
      {
        assert TableFits(s.wire, s.scheduled, p, s.tables[p]);
        forall e | e in u.tables[p] ensures EntryFits(u.wire, p in todo, p, e)
            { assert EntryFits(s.wire, s.scheduled, p, e); }
      }
    }
    assert WireFits(u) by { forall r | r in u.wire ensures SentFits(u, r) { assert SentFits(s, r); } }
    assert HomesFit(u) by { forall p ensures AtHome(TableAt(u, p), p, u.homes)
        { assert AtHome(TableAt(s, p), p, s.homes); } }
    hide TablesFit, WireFits, HomesFit;
    ResolveAllKeeps(u, order, todo);
    assert todo - (set p | p in order) == {};
  }

  lemma RequestKeeps(s: State, p: Place, msg: Msg, done: bool)
    requires Inv(s)
    ensures Inv(Request(s, p, msg, done))
  {
    RequestTables(s, p, msg, done);
    RequestWire(s, p, msg, done);
    RequestHomes(s, p, msg, done);
    hide TablesFit, WireFits, HomesFit, CallsFit;
  }

  /** The table of a request in flight is there. */
  lemma AnsweredTable(s: State, r: nat)
    requires Inv(s) && r in s.wire
    ensures r > 0 && s.wire[r].place in s.tables && Sorted(s.tables[s.wire[r].place])
  {
    var p := s.wire[r].place;
    assert SentFits(s, r);
    assert TaggedBy([], r) == [];
    hide HomesFit, CallsFit;
    assert p in s.tables;
    assert TableFits(s.wire, s.scheduled, p, s.tables[p]);
  }

  lemma AnswerKeeps(s: State, r: nat)
    requires Inv(s) && r in s.wire
    ensures Inv(Finalize(s.(wire := s.wire - {r}), s.wire[r].place, r))
  {
    var u, p := s.(wire := s.wire - {r}), s.wire[r].place;
    AnsweredTable(s, r);
    FinalizeTables(s, r);
    FinalizeWire(s, r);
    hide TablesFit, WireFits, HomesFit, CallsFit;
    SameHomes(s, u);
    FinalizeCalls(u, p, r);
    FinalizeHomes(u, p, r);
  }

  lemma SameHomes(s: State, u: State)
    requires HomesFit(s) && CallsFit(s) && u.tables == s.tables && u.homes == s.homes
    requires u.called == s.called && u.registered == s.registered
    ensures HomesFit(u) && CallsFit(u)
  {
    forall p ensures AtHome(TableAt(u, p), p, u.homes) { assert AtHome(TableAt(s, p), p, s.homes); }
  }

  lemma StepKeeps(s: State, e: Event)
    requires Inv(s) && Possible(s, e)
    ensures Inv(Step(s, e))
  {
    hide Inv, Request, ResolveAll, Finalize;
    match e
    case Requested(p, msg, done) => RequestKeeps(s, p, msg, done);
    case Resolve(order) => ResolveKeeps(s, order);
    case Answer(r) => AnswerKeeps(s, r);
  }

  ghost predicate IsRun(states: seq<State>, events: seq<Event>) {
    && |states| == |events| + 1
    && states[0] == INITIAL
    && forall i :: 0 <= i < |events| ==> Possible(states[i], events[i]) && states[i + 1] == Step(states[i], events[i])
  }

  lemma InitialKeeps()
    ensures Inv(INITIAL)
  {
    forall p ensures AtHome(TableAt(INITIAL, p), p, INITIAL.homes) { assert TableAt(INITIAL, p) == []; }
    assert TableFits(map[], false, None, []);
  }

  lemma {:induction false} RunKeeps(states: seq<State>, events: seq<Event>, n: nat)
    requires IsRun(states, events) && n < |states|
    ensures Inv(states[n])
  {
    hide Step, Inv, Possible;
    if n > 0 {
      RunKeeps(states, events, n - 1);
      StepKeeps(states[n - 1], events[n - 1]);
    } else {
      InitialKeeps();
    }
  }

  /** An entry of a table, as seen from outside. */
  ghost predicate IsEntry(s: State, p: Place, e: Entry) { p in s.tables && e in s.tables[p] }

  /**
    In every run: an entry without a number has a resolve scheduled, one with a number a request in flight that asks for
    its message; a request asks for exactly the messages that carry it; and a callback was called once, or waits once,
    in the entry of the message it was registered for.
   */
  lemma EveryCallbackOnce(states: seq<State>, events: seq<Event>, n: nat)
    requires IsRun(states, events) && n < |states|
    ensures var s := states[n];
            && (forall p, e | IsEntry(s, p, e) ::
                  if e.requestId == 0 then s.scheduled
                  else e.requestId in s.wire && s.wire[e.requestId].place == p && e.msg in s.wire[e.requestId].ids)
            && (forall r | r in s.wire :: s.wire[r].ids == TaggedBy(TableAt(s, s.wire[r].place), r) != [])
            && Distinct(s.called)
            && (forall c: Callback | c < s.registered ::
                  c !in s.called <==> c in s.homes && Holds(TableAt(s, s.homes[c].place), s.homes[c].msg, c))
            && (forall p, msg, c :: Holds(TableAt(s, p), msg, c) ==> c in s.homes && s.homes[c] == Home(p, msg))
  {
    var s := states[n];
    RunKeeps(states, events, n);
    hide IsRun;
    forall p, e | IsEntry(s, p, e)
      ensures if e.requestId == 0 then s.scheduled
              else e.requestId in s.wire && s.wire[e.requestId].place == p && e.msg in s.wire[e.requestId].ids
    {
      hide HomesFit, CallsFit;
      assert TableFits(s.wire, s.scheduled, p, s.tables[p]);
      assert EntryFits(s.wire, s.scheduled, p, e);
      if e.requestId != 0 {
        assert SentFits(s, e.requestId);
        TaggedIn(s.tables[p], e);
      }
    }
    assert forall r | r in s.wire :: SentFits(s, r);
    hide TablesFit, WireFits;
    forall p ensures AtHome(TableAt(s, p), p, s.homes) { }
  }

  lemma {:induction false} TaggedIn(t: Table, e: Entry)
    requires e in t
    ensures e.msg in TaggedBy(t, e.requestId)
  {
    assert t == t[..|t| - 1] + [t[|t| - 1]];
    if e != t[|t| - 1] { TaggedIn(t[..|t| - 1], e); }
  }

  /** An answer calls exactly the callbacks that waited for its messages. */
  lemma AnswerCalls(states: seq<State>, events: seq<Event>, n: nat, r: nat)
    requires IsRun(states, events) && n < |events| && events[n] == Answer(r)
    ensures var s, u := states[n], states[n + 1];
            && r in s.wire && s.called <= u.called
            && (forall c :: c in u.called[|s.called|..] <==>
                  c in s.homes && s.homes[c].place == s.wire[r].place && s.homes[c].msg in s.wire[r].ids)
  {
    var s, u := states[n], states[n + 1];
    RunKeeps(states, events, n);
    assert r in s.wire && u == Step(s, Answer(r));
    hide IsRun;
    var p := s.wire[r].place;
    AnsweredTable(s, r);
    var t := s.tables[p];
    assert u.called == s.called + CallbacksOf(t, r);
    assert SentFits(s, r) && TableAt(s, p) == t;
    assert AtHome(t, p, s.homes);
    hide TablesFit, WireFits, HomesFit, CallsFit, Step, AtHome;
    forall c
      ensures c in CallbacksOf(t, r) <==> c in s.homes && s.homes[c].place == p && s.homes[c].msg in s.wire[r].ids
    {
      CallbacksAtHome(t, p, s.homes, r, c);
      if c in s.homes { TaggedMeans(t, r, s.homes[c].msg); }
    }
  }

  lemma TaggedMeans(t: Table, r: nat, msg: Msg)
    requires Sorted(t) && r > 0
    ensures msg in TaggedBy(t, r) <==> RequestOf(t, msg) == r
  {
    RequestOfIn(t, msg);
    TaggedHas(t, r, msg);
  }

  lemma {:induction false} TaggedHas(t: Table, r: nat, msg: Msg)
    ensures msg in TaggedBy(t, r) <==> exists e :: e in t && e.msg == msg && e.requestId == r
  {
    if |t| > 0 {
      var n := |t| - 1;
      TaggedHas(t[..n], r, msg);
      assert t == t[..n] + [t[n]];
    }
  }

  /** Once nothing is scheduled or in flight every callback was called. */
  lemma QuietMeansCalled(states: seq<State>, events: seq<Event>, n: nat, c: Callback)
    requires IsRun(states, events) && n < |states| && c < states[n].registered
    requires !states[n].scheduled && states[n].wire == map[]
    ensures c in states[n].called
  {
    var s := states[n];
    EveryCallbackOnce(states, events, n);
    hide IsRun;
    assert forall p, e :: !IsEntry(s, p, e);
    assert forall p, msg :: !Holds(TableAt(s, p), msg, c) by {
      forall p, msg ensures !Holds(TableAt(s, p), msg, c) {
        assert forall e :: e in TableAt(s, p) ==> IsEntry(s, p, e);
      }
    }
  }

  // ---------- what the events do ----------

  /** The callbacks that wait for a message. */
  function CallbacksAt(t: Table, msg: Msg): seq<Callback> {
    if |t| == 0 then [] else if t[0].msg == msg then t[0].callbacks else CallbacksAt(t[1..], msg)
  }

  lemma {:induction false} CallbacksLow(t: Table, msg: Msg)
    requires Sorted(t) && (t != [] ==> msg < t[0].msg)
    ensures CallbacksAt(t, msg) == []
  {
    if |t| > 1 { CallbacksLow(t[1..], msg); }
  }

  /** Joining changes the entry of the message, or makes it, and no other. */
  lemma {:induction false} JoinEntries(t: Table, msg: Msg, callbacks: seq<Callback>)
    requires Sorted(t)
    ensures forall e :: e in Join(t, msg, callbacks) <==>
              (e in t && e.msg != msg) || e == Entry(msg, RequestOf(t, msg), CallbacksAt(t, msg) + callbacks)
  {
    if |t| == 0 || msg < t[0].msg {
      RequestOfLow(t, msg);
      CallbacksLow(t, msg);
      assert [] + callbacks == callbacks;
      Prepended(Entry(msg, 0, callbacks), t);
    } else {
      assert t == [t[0]] + t[1..] && forall e :: e in t[1..] ==> t[0].msg < e.msg;
      if msg > t[0].msg {
        JoinEntries(t[1..], msg, callbacks);
      }
    }
  }

  /**
    In every run asking for a message makes its entry or joins it, its callback waiting last there, and schedules a
    resolve exactly when the message is not asked for yet.
   */
  lemma RequestsJoin(states: seq<State>, events: seq<Event>, n: nat, p: Place, msg: Msg, done: bool)
    requires IsRun(states, events) && n < |events| && events[n] == Requested(p, msg, done)
    ensures var s, u, t := states[n], states[n + 1], TableAt(states[n], p);
            var callbacks := if done then [s.registered] else [];
            && u.registered == s.registered + |callbacks| && u.called == s.called && u.wire == s.wire
            && (u.scheduled <==> s.scheduled || RequestOf(t, msg) == 0)
            && (forall q :: q != p ==> TableAt(u, q) == TableAt(s, q))
            && forall e :: e in TableAt(u, p) <==>
                 (e in t && e.msg != msg) || e == Entry(msg, RequestOf(t, msg), CallbacksAt(t, msg) + callbacks)
  {
    var s := states[n];
    RunKeeps(states, events, n);
    assert states[n + 1] == Request(s, p, msg, done);
    hide *;
    RequestJoins(s, p, msg, done);
    SortedTable(s, p);
    JoinEntries(TableAt(s, p), msg, if done then [s.registered] else []);
  }

  lemma SortedTable(s: State, p: Place)
    requires Inv(s)
    ensures Sorted(TableAt(s, p))
  {
    hide WireFits, HomesFit, CallsFit;
    assert p in s.tables ==> TableFits(s.wire, s.scheduled, p, s.tables[p]);
  }

  lemma RequestJoins(s: State, p: Place, msg: Msg, done: bool)
    ensures var u, callbacks := Request(s, p, msg, done), if done then [s.registered] else [];
            && u.registered == s.registered + |callbacks| && u.called == s.called && u.wire == s.wire
            && (u.scheduled <==> s.scheduled || RequestOf(TableAt(s, p), msg) == 0)
            && (forall q :: q != p ==> TableAt(u, q) == TableAt(s, q))
            && TableAt(u, p) == Join(TableAt(s, p), msg, callbacks)
  {
    hide Join, RequestOf;
  }

  /** A table whose entries were all asked for is as it was; of another the rest is asked for by one new request. */
  ghost predicate TableAsked(s: State, u: State, p: Place) {
    var t := TableAt(s, p);
    if Untagged(t) == [] then TableAt(u, p) == t else exists r: nat :: AskedBy(s, u, p, r)
  }

  ghost predicate AskedBy(s: State, u: State, p: Place, r: nat) {
    s.lastId < r <= u.lastId && r in u.wire && u.wire[r] == Sent(p, Untagged(TableAt(s, p)))
    && TableAt(u, p) == Tag(TableAt(s, p), r)
  }

  /** Requests are only added. */
  ghost predicate MoreAsked(s: State, u: State) {
    && s.lastId <= u.lastId && u.called == s.called && u.registered == s.registered
    && forall r :: r in s.wire && r <= s.lastId ==> r in u.wire && u.wire[r] == s.wire[r]
  }

  lemma ResolveOneAsks(s: State, p: Place)
    ensures TableAsked(s, ResolveOne(s, p), p) && MoreAsked(s, ResolveOne(s, p))
    ensures forall q :: q != p ==> TableAt(ResolveOne(s, p), q) == TableAt(s, q)
  {
    var u := ResolveOne(s, p);
    if Untagged(TableAt(s, p)) != [] {
      assert p in s.tables;
      assert AskedBy(s, u, p, s.lastId + 1);
    }
  }

  ghost predicate RequestsNumbered(s: State) { forall r :: r in s.wire ==> r <= s.lastId }

  lemma ResolveOneNumbers(s: State, p: Place)
    requires RequestsNumbered(s)
    ensures RequestsNumbered(ResolveOne(s, p))
  {
    hide Untagged, Tag;
  }

  lemma MoreTwice(s: State, v: State, u: State)
    requires MoreAsked(s, v) && MoreAsked(v, u) && RequestsNumbered(v)
    ensures MoreAsked(s, u)
  {
  }

  lemma {:induction false} ResolveAllAsks(s: State, order: seq<Place>, p: Place)
    requires RequestsNumbered(s) && forall i, j :: 0 <= i < j < |order| ==> order[i] != order[j]
    ensures var u := ResolveAll(s, order);
            && MoreAsked(s, u) && RequestsNumbered(u)
            && if p in order then TableAsked(s, u, p) else TableAt(u, p) == TableAt(s, p)
  {
    if |order| > 0 {
      var n := |order| - 1;
      var init, last := order[..n], order[n];
      var v, u := ResolveAll(s, init), ResolveAll(s, order);
      ResolveAllAsks(s, init, p);
      hide Untagged, Tag, TableAt, TableAsked, MoreAsked, RequestsNumbered, ResolveOne;
      ResolveOneAsks(v, last);
      assert order == init + [last] && u == ResolveOne(v, last);
      assert p == last ==> p !in init;
      hide *;
      ResolveOneNumbers(v, last);
      MoreTwice(s, v, u);
      if p == last { AskedLater(s, v, u, p); } else if p in init { AskedBefore(s, v, u, p); }
    }
  }

  lemma AskedLater(s: State, v: State, u: State, p: Place)
    requires MoreAsked(s, v) && TableAt(v, p) == TableAt(s, p) && TableAsked(v, u, p)
    ensures TableAsked(s, u, p)
  {
    if Untagged(TableAt(s, p)) != [] {
      var r: nat :| AskedBy(v, u, p, r);
      hide Untagged, Tag, TableAt;
      assert AskedBy(s, u, p, r);
    }
  }

  lemma AskedBefore(s: State, v: State, u: State, p: Place)
    requires MoreAsked(v, u) && RequestsNumbered(v) && TableAt(u, p) == TableAt(v, p) && TableAsked(s, v, p)
    ensures TableAsked(s, u, p)
  {
    if Untagged(TableAt(s, p)) != [] {
      var r: nat :| AskedBy(s, v, p, r);
      hide Untagged, Tag, TableAt;
      assert AskedBy(s, u, p, r);
    }
  }

  lemma OneRequestAsks(s: State, u: State, p: Place, q: nat)
    requires Inv(s) && Inv(u) && TableAsked(s, u, p)
    requires q in u.wire && u.wire[q].place == p && s.lastId < q
    ensures AskedBy(s, u, p, q)
  {
    assert SentFits(u, q);
    var t := TableAt(s, p);
    assert TaggedBy(TableAt(u, p), q) != [];
    NoneTaggedNewly(s, p, q);
    if Untagged(t) != [] {
      var r: nat :| AskedBy(s, u, p, r);
      hide Inv, Untagged;
      if r != q { TagOther(t, r, q); }
    }
  }

  /** No entry has a number yet to come. */
  lemma NoneTaggedNewly(s: State, p: Place, q: nat)
    requires Inv(s) && s.lastId < q
    ensures forall e :: e in TableAt(s, p) ==> e.requestId != q
    ensures TaggedBy(TableAt(s, p), q) == []
  {
    hide HomesFit, CallsFit;
    var t := TableAt(s, p);
    forall e | e in t
      ensures e.requestId != q
    {
      assert TableFits(s.wire, s.scheduled, p, t);
      assert EntryFits(s.wire, s.scheduled, p, e);
      assert e.requestId in s.wire ==> SentFits(s, e.requestId);
    }
    TaggedNone(t, q);
  }

  lemma {:induction false} TaggedNone(t: Table, q: nat)
    requires forall e :: e in t ==> e.requestId != q
    ensures TaggedBy(t, q) == []
  {
    if |t| > 0 {
      assert t[|t| - 1] in t && forall e :: e in t[..|t| - 1] ==> e in t;
      TaggedNone(t[..|t| - 1], q);
    }
  }

  lemma TagOther(t: Table, r: nat, q: nat)
    requires r != q && forall e :: e in t ==> e.requestId != q
    ensures TaggedBy(Tag(t, r), q) == []
  {
    forall e | e in Tag(t, r)
      ensures e.requestId != q
    {
      var i :| 0 <= i < |t| && Tag(t, r)[i] == e;
      assert t[i] in t;
    }
    TaggedNone(Tag(t, r), q);
  }

  /**
    In every run the scheduled call asks, for each table with messages not asked for, by one new request for exactly
    those, and leaves entries, callbacks and earlier requests as they were.
   */
  lemma ResolvesAsk(states: seq<State>, events: seq<Event>, n: nat, p: Place)
    requires IsRun(states, events) && n < |events| && events[n].Resolve?
    ensures var s, u := states[n], states[n + 1];
            && !u.scheduled && u.called == s.called && u.registered == s.registered
            && (forall r :: r in s.wire ==> r in u.wire && u.wire[r] == s.wire[r])
            && TableAsked(s, u, p)
            && forall q: nat :: q in u.wire && u.wire[q].place == p && s.lastId < q ==> AskedBy(s, u, p, q)
  {
    var s, u, order := states[n], states[n + 1], events[n].order;
    RunKeeps(states, events, n);
    RunKeeps(states, events, n + 1);
    assert u == ResolveAll(s.(scheduled := false), order) && Possible(s, events[n]);
    assert forall i, j :: 0 <= i < j < |order| ==> order[i] != order[j];
    assert p in order <==> p in s.tables.Keys;
    hide IsRun, Step, Possible, Enumerates;
    Numbered(s);
    hide Inv;
    ResolveAllAsks(s.(scheduled := false), order, p);
    ResolveUnschedules(s, order);
    UnscheduledAsked(s, u, p);
    if p !in s.tables { NothingThere(s, u, p); }
    forall q: nat | q in u.wire && u.wire[q].place == p && s.lastId < q
      ensures AskedBy(s, u, p, q)
    {
      OneRequestAsks(s, u, p, q);
    }
  }

  lemma UnscheduledAsked(s: State, u: State, p: Place)
    ensures TableAsked(s.(scheduled := false), u, p) ==> TableAsked(s, u, p)
  {
    var v := s.(scheduled := false);
    assert forall r: nat :: AskedBy(v, u, p, r) == AskedBy(s, u, p, r);
  }

  lemma NothingThere(s: State, u: State, p: Place)
    requires p !in s.tables && TableAt(u, p) == TableAt(s.(scheduled := false), p)
    ensures TableAsked(s, u, p)
  {
  }

  lemma Numbered(s: State)
    requires Inv(s)
    ensures RequestsNumbered(s)
  {
    forall r | r in s.wire ensures r <= s.lastId { assert SentFits(s, r); }
  }

  lemma {:induction false} ResolveUnschedules(s: State, order: seq<Place>)
    ensures !ResolveAll(s.(scheduled := false), order).scheduled
  {
    hide Untagged, Tag;
    if |order| > 0 { ResolveUnschedules(s, order[..|order| - 1]); }
  }

  /** In every run an answer takes out exactly the entries that carry its request. */
  lemma AnswersTakeOut(states: seq<State>, events: seq<Event>, n: nat, r: nat)
    requires IsRun(states, events) && n < |events| && events[n] == Answer(r)
    ensures var s, u := states[n], states[n + 1];
            && u.wire == s.wire - {r} && u.registered == s.registered && u.scheduled == s.scheduled
            && forall p, e :: IsEntry(u, p, e) <==> IsEntry(s, p, e) && e.requestId != r
  {
    var s, u := states[n], states[n + 1];
    RunKeeps(states, events, n);
    assert r in s.wire && u == Finalize(s.(wire := s.wire - {r}), s.wire[r].place, r);
    hide *;
    AnswerTakesOut(s, r);
  }

  lemma AnswerTakesOut(s: State, r: nat)
    requires Inv(s) && r in s.wire
    ensures var u := Finalize(s.(wire := s.wire - {r}), s.wire[r].place, r);
            && u.wire == s.wire - {r} && u.registered == s.registered && u.scheduled == s.scheduled
            && forall p, e :: IsEntry(u, p, e) <==> IsEntry(s, p, e) && e.requestId != r
  {
    var u := Finalize(s.(wire := s.wire - {r}), s.wire[r].place, r);
    AnsweredTable(s, r);
    var place := s.wire[r].place;
    WithoutFits(s.tables[place], r);
    hide Inv, Without, CallbacksOf, Sorted;
    forall p, e
      ensures IsEntry(u, p, e) <==> IsEntry(s, p, e) && e.requestId != r
    {
      if IsEntry(s, p, e) && p != place { EntryElsewhere(s, p, e, r); }
    }
  }

  lemma EntryElsewhere(s: State, p: Place, e: Entry, r: nat)
    requires Inv(s) && r in s.wire && IsEntry(s, p, e) && p != s.wire[r].place
    ensures e.requestId != r
  {
    assert TableFits(s.wire, s.scheduled, p, s.tables[p]);
    assert EntryFits(s.wire, s.scheduled, p, e);
    assert SentFits(s, r);
  }

  // ---------- the object ----------

  /** ApiWrap, as far as messages asked for go; the table outside channels is the one at None. */
  class MessageDataRequests {
    var messageDataRequests: map<Place, Table>
    var resolveScheduled: bool
    var wire: map<nat, Sent>
    var lastId: nat
    var registered: nat
    var called: seq<Callback>
    ghost var homes: map<Callback, Home>

    ghost function Abs(): State
      reads this
    {
      State(messageDataRequests, resolveScheduled, wire, lastId, registered, called, homes)
    }

    constructor ()
      ensures Abs() == INITIAL
    {
      messageDataRequests, resolveScheduled := map[None := []], false;
      wire, lastId, registered, called := map[], 0, 0, [];
      homes := map[];
    }

    method RequestMessageData(p: Place, msg: Msg, done: bool)
      requires Sorted(TableAt(Abs(), p))
      modifies this
      ensures Abs() == Request(old(Abs()), p, msg, done)
    {
      var table := if p in messageDataRequests then messageDataRequests[p] else [];
      var requestId := 0;
      var callbacks: seq<Callback> := [];
      if done {
        callbacks := [registered];
        homes := homes[registered := Home(p, msg)];
        registered := registered + 1;
      }
      table, requestId := JoinTable(table, msg, callbacks);
      messageDataRequests := messageDataRequests[p := table];
      if requestId == 0 { resolveScheduled := true; }
    }

    /** One table's turn in resolveMessageDatas. */
    method ResolveTable(p: Place)
      requires p in messageDataRequests
      modifies this`messageDataRequests, this`wire, this`lastId
      ensures Abs() == ResolveOne(old(Abs()), p)
    {
      var table := messageDataRequests[p];
      if p.Some? && table == [] {
        messageDataRequests := messageDataRequests - {p};
        return;
      }
      var ids := CollectMessageIds(table);
      if ids != [] {
        lastId := lastId + 1;
        wire := wire[lastId := Sent(p, ids)];
        var tagged := TagTable(table, lastId);
        messageDataRequests := messageDataRequests[p := tagged];
      }
    }

    method ResolveMessageDatas(order: seq<Place>)
      requires Enumerates(order, messageDataRequests.Keys)
      modifies this
      ensures Abs() == ResolveAll(old(Abs()).(scheduled := false), order)
    {
      hide ResolveOne;
      resolveScheduled := false;
      ghost var s := Abs();
      assert order[..0] == [];
      for i := 0 to |order|
        invariant Abs() == ResolveAll(s, order[..i])
        invariant forall k :: i <= k < |order| ==> order[k] in messageDataRequests
      {
        assert order[..i + 1][..i] == order[..i];
        ghost var before := Abs();
        ResolveTable(order[i]);
        OthersStay(before, order[i]);
      }
      assert order[..|order|] == order;
    }

    /** The erasing loop of finalizeMessageDataRequest, then the calls. */
    method FinalizeMessageDataRequest(p: Place, r: nat)
      modifies this
      ensures Abs() == Finalize(old(Abs()), p, r)
    {
      if p !in messageDataRequests { return; }
      var table := messageDataRequests[p];
      var callbacks: seq<Callback> := [];
      table, callbacks := TakeRequest(table, r);
      if p.Some? && table == [] {
        messageDataRequests := messageDataRequests - {p};
      } else {
        messageDataRequests := messageDataRequests[p := table];
      }
      called := called + callbacks;
      homes := homes - (set c | c in callbacks);
    }

    method OnAnswer(r: nat)
      requires r in wire
      modifies this
      ensures Abs() == Finalize(old(Abs()).(wire := old(wire) - {r}), old(wire)[r].place, r)
    {
      var place := wire[r].place;
      wire := wire - {r};
      FinalizeMessageDataRequest(place, r);
    }
  }

  lemma OthersStay(s: State, p: Place)
    ensures forall q :: q != p && q in s.tables ==> q in ResolveOne(s, p).tables
  {
  }

  /** Joining at the place of the message. */
  function JoinedAt(t: Table, msg: Msg, callbacks: seq<Callback>, i: nat): Table
    requires i <= |t|
  {
    if i < |t| && t[i].msg == msg then t[i := t[i].(callbacks := t[i].callbacks + callbacks)]
    else t[..i] + [Entry(msg, 0, callbacks)] + t[i..]
  }

  lemma JoinedDeeper(t: Table, msg: Msg, callbacks: seq<Callback>, i: nat)
    requires 0 < i <= |t|
    ensures JoinedAt(t, msg, callbacks, i) == [t[0]] + JoinedAt(t[1..], msg, callbacks, i - 1)
  {
    if i < |t| && t[i].msg == msg {
      assert t == [t[0]] + t[1..] && t[i] == t[1..][i - 1];
    } else {
      var e := Entry(msg, 0, callbacks);
      assert t[..i] == [t[0]] + t[1..][..i - 1] && t[i..] == t[1..][i - 1..];
      assert t[..i] + [e] + t[i..] == [t[0]] + (t[1..][..i - 1] + [e] + t[1..][i - 1..]);
    }
  }

  lemma {:induction false} JoinAt(t: Table, msg: Msg, callbacks: seq<Callback>, i: nat)
    requires i <= |t| && Sorted(t) && (forall k :: 0 <= k < i ==> t[k].msg < msg) && (i < |t| ==> msg <= t[i].msg)
    ensures Join(t, msg, callbacks) == JoinedAt(t, msg, callbacks, i)
    ensures RequestOf(t, msg) == if i < |t| && t[i].msg == msg then t[i].requestId else 0
  {
    if i > 0 {
      JoinAt(t[1..], msg, callbacks, i - 1);
      assert t[0].msg < msg && (i < |t| ==> t[1..][i - 1] == t[i]);
      hide JoinedAt;
      JoinedDeeper(t, msg, callbacks, i);
    } else if t == [] || msg < t[0].msg {
      RequestOfLow(t, msg);
    }
  }

  method JoinTable(t: Table, msg: Msg, callbacks: seq<Callback>) returns (u: Table, requestId: nat)
    requires Sorted(t)
    ensures u == Join(t, msg, callbacks) && requestId == RequestOf(t, msg)
  {
    var i := 0;
    while i < |t| && t[i].msg < msg
      invariant i <= |t| && forall k :: 0 <= k < i ==> t[k].msg < msg
    {
      i := i + 1;
    }
    JoinAt(t, msg, callbacks, i);
    if i < |t| && t[i].msg == msg {
      requestId := t[i].requestId;
      u := t[i := t[i].(callbacks := t[i].callbacks + callbacks)];
    } else {
      requestId := 0;
      u := t[..i] + [Entry(msg, 0, callbacks)] + t[i..];
    }
  }

  method CollectMessageIds(t: Table) returns (ids: seq<Msg>)
    ensures ids == Untagged(t)
  {
    ids := [];
    for i := 0 to |t|
      invariant ids == Untagged(t[..i])
    {
      assert t[..i + 1][..i] == t[..i];
      if t[i].requestId > 0 { continue; }
      ids := ids + [t[i].msg];
    }
    assert t[..|t|] == t;
  }

  method TagTable(t: Table, r: nat) returns (u: Table)
    ensures u == Tag(t, r)
  {
    u := t;
    for i := 0 to |t|
      invariant |u| == |t| && (forall k :: i <= k < |t| ==> u[k] == t[k])
      invariant forall k :: 0 <= k < i ==> u[k] == Tag(t, r)[k]
    {
      if u[i].requestId > 0 { continue; }
      u := u[i := u[i].(requestId := r)];
    }
  }

  /** One turn of the erasing loop: the kept entries, then those not visited. */
  lemma TakeNext(t: Table, r: nat, k: nat)
    requires k < |t|
    ensures var kept, now := Without(t[..k], r), Without(t[..k], r) + t[k..];
            && now[|kept|] == t[k]
            && (if t[k].requestId == r
                then Without(t[..k + 1], r) == kept && now[..|kept|] + now[|kept| + 1..] == kept + t[k + 1..]
                else Without(t[..k + 1], r) == kept + [t[k]] && now == Without(t[..k + 1], r) + t[k + 1..])
    ensures CallbacksOf(t[..k + 1], r) == CallbacksOf(t[..k], r) + if t[k].requestId == r then t[k].callbacks else []
  {
    assert t[..k + 1][..k] == t[..k];
  }

  method TakeRequest(t: Table, r: nat) returns (left: Table, callbacks: seq<Callback>)
    ensures left == Without(t, r) && callbacks == CallbacksOf(t, r)
  {
    left, callbacks := t, [];
    var i := 0;
    ghost var k := 0;
    assert t[..0] == [] && Without([], r) == [] && CallbacksOf([], r) == [];
    hide Without, CallbacksOf;
    while i < |left|
      invariant k <= |t| && i == |Without(t[..k], r)| && left == Without(t[..k], r) + t[k..]
      invariant callbacks == CallbacksOf(t[..k], r)
      decreases |t| - k
    {
      TakeNext(t, r, k);
      var entry := left[i];
      if entry.requestId == r {
        callbacks := callbacks + entry.callbacks;
        left := left[..i] + left[i + 1..];
      } else {
        assert callbacks + [] == callbacks;
        i := i + 1;
      }
      k := k + 1;
    }
    assert t[..k] == t;
  }
}
