/**
  Loading the lists of dialogs (apiwrap.cpp): each list, the main one or a folder's, is loaded by slices while its
  pinned dialogs are loaded by another request; when both parts are there the load is dropped and the end of the list
  is announced. The main load exists from the start, a folder's once it is asked for.

  What the reply contains and what the filters and the archive ask for are choices of the environment.
 */
module Dialogs {
  import opened Wrappers

  datatype Key = Main | Folder(id: nat)

  datatype Offset = Offset(date: int, id: int, peer: nat)

  const START := Offset(0, 0, 0)

  /** DialogsLoadState */
  datatype Load = Load(
    offset: Offset, requestId: nat, listReceived: bool, pinnedRequestId: nat, pinnedReceived: bool)

  const FRESH := Load(START, 0, false, 0, false)

  datatype ListRequest = ListRequest(key: Key, offset: Offset, firstLoad: bool)

  /** The requests in flight: for lists, for a load's pinned dialogs, and for pinned dialogs alone. */
  datatype Wire = Wire(lists: map<nat, ListRequest>, pins: map<nat, Key>, reloads: map<nat, Key>, lastId: nat)

  datatype State = State(
    loads: map<Key, Load>, till: int, mayBlock: bool, blocked: bool, pinnedReloads: set<Key>, wire: Wire,
    posted: seq<Key>, started: multiset<Key>, crashed: bool)

  const INITIAL :=
    State(map[Main := FRESH], 0, false, false, {}, Wire(map[], map[], map[], 0), [], multiset{Main}, false)

  // ---------- where the next slice starts ----------

  type Peer = nat

  /** A dialog with its peer and its top message, or an entry of another kind. */
  datatype Dialog = Dialog(peer: Peer, topMessage: int) | Other

  datatype Message = Message(id: int, peer: Peer, date: int)

  predicate Usable(d: Dialog) { d.Dialog? && d.peer != 0 && d.topMessage != 0 }

  predicate IsTop(m: Message, d: Dialog) { d.Dialog? && m.id == d.topMessage && m.peer == d.peer }

  /** The date of a dialog's top message: that of the last message that matches, 0 without one. */
  function TopDate(d: Dialog, messages: seq<Message>): int {
    if |messages| == 0 then 0
    else if IsTop(messages[|messages| - 1], d) then messages[|messages| - 1].date
    else TopDate(d, messages[..|messages| - 1])
  }

  predicate Dated(d: Dialog, messages: seq<Message>) { Usable(d) && TopDate(d, messages) != 0 }

  /** The place after the last index that satisfies Usable, or Dated; 0 without one. */
  function AfterUsable(dialogs: seq<Dialog>): (n: nat)
    ensures n <= |dialogs| && (n > 0 ==> Usable(dialogs[n - 1]))
    ensures forall i :: n <= i < |dialogs| ==> !Usable(dialogs[i])
  {
    if |dialogs| == 0 || Usable(dialogs[|dialogs| - 1]) then |dialogs| else AfterUsable(dialogs[..|dialogs| - 1])
  }

  function AfterDated(dialogs: seq<Dialog>, messages: seq<Message>): (n: nat)
    ensures n <= |dialogs| && (n > 0 ==> Dated(dialogs[n - 1], messages))
    ensures forall i :: n <= i < |dialogs| ==> !Dated(dialogs[i], messages)
  {
    if |dialogs| == 0 || Dated(dialogs[|dialogs| - 1], messages) then |dialogs|
    else AfterDated(dialogs[..|dialogs| - 1], messages)
  }

  /** The offset updateDialogsOffset computes: the date of the last dated dialog, the rest from the last usable one. */
  function NextOffset(dialogs: seq<Dialog>, messages: seq<Message>): Option<Offset> {
    var n, m := AfterDated(dialogs, messages), AfterUsable(dialogs);
    if n == 0 then None
    else if m == 0 then None
    else Some(Offset(TopDate(dialogs[n - 1], messages), dialogs[m - 1].topMessage, dialogs[m - 1].peer))
  }

  predicate LastUsable(dialogs: seq<Dialog>, i: int) {
    0 <= i < |dialogs| && Usable(dialogs[i]) && forall j :: i < j < |dialogs| ==> !Usable(dialogs[j])
  }

  predicate LastDated(dialogs: seq<Dialog>, messages: seq<Message>, i: int) {
    0 <= i < |dialogs| && Dated(dialogs[i], messages) && forall j :: i < j < |dialogs| ==> !Dated(dialogs[j], messages)
  }

  /**
    There is a next offset exactly if some dialog has a dated top message; its date and its message are of one dialog
    exactly if the last usable dialog is dated.
   */
  lemma OffsetIsOfOneDialog(dialogs: seq<Dialog>, messages: seq<Message>)
    ensures NextOffset(dialogs, messages).Some? <==> exists i :: 0 <= i < |dialogs| && Dated(dialogs[i], messages)
    ensures NextOffset(dialogs, messages).Some? ==>
              && AfterDated(dialogs, messages) <= AfterUsable(dialogs)
              && (AfterDated(dialogs, messages) == AfterUsable(dialogs)
                  <==> Dated(dialogs[AfterUsable(dialogs) - 1], messages))
  {
    var n := AfterDated(dialogs, messages);
    assert n > 0 ==> Usable(dialogs[n - 1]);
  }

  /** The offset has the date of the last dated dialog and the message and peer of the last usable one. */
  lemma OffsetParts(dialogs: seq<Dialog>, messages: seq<Message>, i: int, j: int)
    requires LastDated(dialogs, messages, i) && LastUsable(dialogs, j)
    ensures NextOffset(dialogs, messages)
            == Some(Offset(TopDate(dialogs[i], messages), dialogs[j].topMessage, dialogs[j].peer))
  {
    assert AfterDated(dialogs, messages) == i + 1;
    assert AfterUsable(dialogs) == j + 1;
  }

  /** A slice whose last usable dialog has no dated message: the date of one dialog, the message of another. */
  lemma OffsetMayMixDialogs()
    ensures NextOffset([Dialog(1, 10), Dialog(2, 20)], [Message(10, 1, 5)]) == Some(Offset(5, 20, 2))
  {
    var first, second, message := Dialog(1, 10), Dialog(2, 20), Message(10, 1, 5);
    assert TopDate(first, [message]) == 5;
    assert TopDate(second, [message][..0]) == 0 && TopDate(second, [message]) == 0;
    assert [first, second][..1] == [first];
    assert AfterDated([first], [message]) == 1;
  }

  // ---------- what each function does ----------

  /** refreshDialogsLoadBlocked */
  function RefreshBlocked(s: State): State {
    if Main !in s.loads then s.(mayBlock := false, blocked := false)
    else
      var l := s.loads[Main];
      s.(mayBlock := !l.listReceived && s.till > 0,
         blocked := !l.listReceived && l.requestId == 0 && s.till > 0 && l.offset.date > 0 && l.offset.date <= s.till)
  }

  function SendList(s: State, k: Key): State
    requires k in s.loads
  {
    var l, id := s.loads[k], s.wire.lastId + 1;
    s.(loads := s.loads[k := l.(requestId := id)],
       wire := s.wire.(lists := s.wire.lists[id := ListRequest(k, l.offset, l.offset.date == 0)], lastId := id))
  }

  /** requestPinnedDialogs */
  function RequestPinned(s: State, k: Key): State {
    if k !in s.loads || s.loads[k].pinnedReceived || s.loads[k].pinnedRequestId != 0 then s
    else
      var id := s.wire.lastId + 1;
      s.(loads := s.loads[k := s.loads[k].(pinnedRequestId := id)],
         wire := s.wire.(pins := s.wire.pins[id := k], lastId := id))
  }

  /** requestMoreDialogs */
  function RequestMore(s: State, k: Key): State {
    if k !in s.loads || s.loads[k].requestId != 0 || s.blocked then s
    else
      var u := RequestPinned(SendList(s, k), k);
      if k == Main then RefreshBlocked(u) else u
  }

  function Start(s: State, k: Key): State {
    if k != Main && k !in s.loads
    then s.(loads := s.loads[k := FRESH], started := s.started + multiset{k})
    else s
  }

  /** requestDialogs */
  function Request(s: State, k: Key): State { RequestMore(Start(s, k), k) }

  /** What requestMoreDialogsIfNeeded is told: exceptions still to load, and an archive that is needed. */
  datatype Needs = Needs(exceptions: bool, archive: Option<nat>)

  /** requestMoreDialogsIfNeeded */
  function MoreIfNeeded(s: State, needs: Needs): State {
    if needs.exceptions then s
    else if Main in s.loads && !s.loads[Main].listReceived then Request(s, Main)
    else match needs.archive case None => s case Some(id) => RequestMore(s, Folder(id))
  }

  /** dialogsLoadFinish */
  function Finish(s: State, k: Key): State {
    if k in s.loads && s.loads[k].listReceived && s.loads[k].pinnedReceived
    then s.(loads := s.loads - {k}, posted := s.posted + [k])
    else s
  }

  function ReceiveList(s: State, k: Key): State {
    if k !in s.loads then s else Finish(s.(loads := s.loads[k := s.loads[k].(listReceived := true)]), k)
  }

  datatype Reply = NotModified | Everything | Slice(dialogs: seq<Dialog>, messages: seq<Message>)

  /** updateDialogsOffset */
  function UpdateOffset(s: State, k: Key, dialogs: seq<Dialog>, messages: seq<Message>): State {
    if k !in s.loads then s
    else
      match NextOffset(dialogs, messages)
      case None => ReceiveList(s, k)
      case Some(offset) => s.(loads := s.loads[k := s.loads[k].(offset := offset, requestId := 0)])
  }

  function TakeReply(s: State, k: Key, reply: Reply): State {
    match reply
    case NotModified => s
    case Everything => ReceiveList(s, k)
    case Slice(dialogs, messages) => UpdateOffset(s, k, dialogs, messages)
  }

  function ListAnswered(w: Wire, id: nat): Wire { w.(lists := w.lists - {id}) }

  function PinAnswered(w: Wire, id: nat): Wire { w.(pins := w.pins - {id}) }

  function ListDone(s: State, k: Key, reply: Reply, needs: Needs): State {
    var u := TakeReply(s, k, reply);
    MoreIfNeeded(if k == Main && (Main !in u.loads || !u.loads[Main].listReceived) then RefreshBlocked(u) else u, needs)
  }

  /** The fail handler: it takes the load to be there. */
  function ListFailed(s: State, k: Key): State {
    if k !in s.loads then s.(crashed := true) else s.(loads := s.loads[k := s.loads[k].(requestId := 0)])
  }

  /** What the answer to the pinned request does, be it done or failed. */
  function PinDone(s: State, k: Key): State {
    if k !in s.loads then s
    else Finish(s.(loads := s.loads[k := s.loads[k].(pinnedRequestId := 0, pinnedReceived := true)]), k)
  }

  /** reloadPinnedDialogs */
  function Reload(s: State, k: Key): State {
    if k in s.pinnedReloads then s
    else s.(pinnedReloads := s.pinnedReloads + {k},
            wire := s.wire.(reloads := s.wire.reloads[s.wire.lastId + 1 := k], lastId := s.wire.lastId + 1))
  }

  /** requestMoreBlockedByDateDialogs */
  function Unblock(s: State, now: int, max: int): State {
    if Main !in s.loads then s
    else
      var date := s.loads[Main].offset.date;
      Request(RefreshBlocked(s.(till := (if date != 0 then date else now) - max)), Main)
  }

  datatype Event =
    | Asked(key: Key)
    | AskedMore(needs: Needs)
    | Unblocked(now: int, max: int)
    | Reloaded(key: Key)
    | ListReplied(id: nat, reply: Reply, needs: Needs)
    | ListFails(id: nat)
    | PinAnswers(id: nat)
    | ReloadAnswers(id: nat)

  predicate Possible(s: State, e: Event) {
    match e
    case ListReplied(id, _, _) => id in s.wire.lists
    case ListFails(id) => id in s.wire.lists
    case PinAnswers(id) => id in s.wire.pins
    case ReloadAnswers(id) => id in s.wire.reloads
    case _ => true
  }

  function Step(s: State, e: Event): State
    requires Possible(s, e)
  {
    match e
    case Asked(k) => Request(s, k)
    case AskedMore(needs) => MoreIfNeeded(s, needs)
    case Unblocked(now, max) => Unblock(s, now, max)
    case Reloaded(k) => Reload(s, k)
    case ListReplied(id, reply, needs) =>
      ListDone(s.(wire := ListAnswered(s.wire, id)), s.wire.lists[id].key, reply, needs)
    case ListFails(id) => ListFailed(s.(wire := ListAnswered(s.wire, id)), s.wire.lists[id].key)
    case PinAnswers(id) => PinDone(s.(wire := PinAnswered(s.wire, id)), s.wire.pins[id])
    case ReloadAnswers(id) =>
      s.(pinnedReloads := s.pinnedReloads - {s.wire.reloads[id]},
         wire := s.wire.(reloads := s.wire.reloads - {id}))
  }

  // ---------- what every run keeps ----------

  /** A list request in flight belongs to a living load that names it and still waits for the list. */
  ghost predicate ListsAlive(loads: map<Key, Load>, lists: map<nat, ListRequest>, lastId: nat) {
    forall id :: id in lists ==>
      && 0 < id <= lastId && lists[id].key in loads
      && loads[lists[id].key].requestId == id && !loads[lists[id].key].listReceived
  }

  ghost predicate PinsAlive(loads: map<Key, Load>, pins: map<nat, Key>, lastId: nat) {
    forall id :: id in pins ==> 0 < id <= lastId && pins[id] in loads && loads[pins[id]].pinnedRequestId == id
  }

  ghost predicate LoadFits(pins: map<nat, Key>, k: Key, l: Load) {
    && (l.pinnedRequestId != 0 ==> l.pinnedRequestId in pins && pins[l.pinnedRequestId] == k && !l.pinnedReceived)
    && !(l.listReceived && l.pinnedReceived)
    && (l.listReceived ==> l.requestId != 0)
  }

  ghost predicate LoadsFit(loads: map<Key, Load>, pins: map<nat, Key>) {
    forall k :: k in loads ==> LoadFits(pins, k, loads[k])
  }

  /** A load whose list was asked for has asked for its pinned dialogs. */
  ghost predicate PinsAsked(loads: map<Key, Load>) {
    forall k :: k in loads && loads[k].requestId != 0 ==> loads[k].pinnedReceived || loads[k].pinnedRequestId != 0
  }

  /** Every load that was started is either there or was announced, once. */
  ghost predicate Counted(keys: set<Key>, posted: seq<Key>, started: multiset<Key>) {
    && (forall k :: multiset(posted)[k] + (if k in keys then 1 else 0) == started[k])
    && started[Main] == 1
  }

  ghost predicate ReloadFor(reloads: map<nat, Key>, k: Key) { exists id :: id in reloads && reloads[id] == k }

  ghost predicate ReloadsFit(reloads: map<nat, Key>, pinnedReloads: set<Key>, lastId: nat) {
    && (forall id :: id in reloads ==> id <= lastId && reloads[id] in pinnedReloads)
    && (forall k :: k in pinnedReloads ==> ReloadFor(reloads, k))
    && (forall i, j :: i in reloads && j in reloads && reloads[i] == reloads[j] ==> i == j)
  }

  ghost predicate Kept(s: State) {
    && !s.crashed
    && ListsAlive(s.loads, s.wire.lists, s.wire.lastId)
    && PinsAlive(s.loads, s.wire.pins, s.wire.lastId)
    && LoadsFit(s.loads, s.wire.pins)
    && Counted(s.loads.Keys, s.posted, s.started)
    && ReloadsFit(s.wire.reloads, s.pinnedReloads, s.wire.lastId)
  }

  ghost predicate Inv(s: State) { Kept(s) && PinsAsked(s.loads) }

  lemma SameKeys(loads: map<Key, Load>, k: Key, l: Load)
    requires k in loads
    ensures loads[k := l].Keys == loads.Keys
  {
  }

  lemma ReloadsStay(reloads: map<nat, Key>, pinnedReloads: set<Key>, lastId: nat)
    requires ReloadsFit(reloads, pinnedReloads, lastId)
    ensures ReloadsFit(reloads, pinnedReloads, lastId + 1)
  {
  }

  lemma SendListKeeps(s: State, k: Key)
    requires Kept(s) && k in s.loads && s.loads[k].requestId == 0
    ensures Kept(SendList(s, k))
  {
    var u := SendList(s, k);
    SameKeys(s.loads, k, u.loads[k]);
    ReloadsStay(s.wire.reloads, s.pinnedReloads, s.wire.lastId);
    assert LoadsFit(u.loads, u.wire.pins) by { hide ListsAlive, PinsAlive, Counted, ReloadsFit; }
    assert ListsAlive(u.loads, u.wire.lists, u.wire.lastId) by { hide LoadsFit, PinsAlive, Counted, ReloadsFit; }
    hide Counted, ReloadsFit, LoadsFit, ListsAlive;
  }

  /** The list's part of a load decides whether its request is known. */
  lemma ListsStay(loads: map<Key, Load>, lists: map<nat, ListRequest>, lastId: nat, next: nat, k: Key, l: Load)
    requires ListsAlive(loads, lists, lastId) && lastId <= next && k in loads
    requires l.requestId == loads[k].requestId && l.listReceived == loads[k].listReceived
    ensures ListsAlive(loads[k := l], lists, next)
  {
  }

  lemma NewPin(loads: map<Key, Load>, pins: map<nat, Key>, lastId: nat, k: Key)
    requires PinsAlive(loads, pins, lastId) && LoadsFit(loads, pins) && k in loads
    requires !loads[k].pinnedReceived && loads[k].pinnedRequestId == 0
    ensures PinsAlive(loads[k := loads[k].(pinnedRequestId := lastId + 1)], pins[lastId + 1 := k], lastId + 1)
    ensures LoadsFit(loads[k := loads[k].(pinnedRequestId := lastId + 1)], pins[lastId + 1 := k])
  {
  }

  lemma PinnedKeeps(s: State, k: Key)
    requires Kept(s)
    ensures Kept(RequestPinned(s, k))
  {
    hide Counted, ReloadsFit, ListsAlive, LoadsFit, PinsAlive;
    if k in s.loads && !s.loads[k].pinnedReceived && s.loads[k].pinnedRequestId == 0 {
      var l := s.loads[k].(pinnedRequestId := s.wire.lastId + 1);
      SameKeys(s.loads, k, l);
      ReloadsStay(s.wire.reloads, s.pinnedReloads, s.wire.lastId);
      ListsStay(s.loads, s.wire.lists, s.wire.lastId, s.wire.lastId + 1, k, l);
      NewPin(s.loads, s.wire.pins, s.wire.lastId, k);
    }
  }

  lemma RequestMoreAsksPinned(s: State, k: Key)
    requires PinsAsked(s.loads) && k in s.loads
    ensures PinsAsked(RequestPinned(SendList(s, k), k).loads)
  {
  }

  lemma RequestMoreKeeps(s: State, k: Key)
    requires Inv(s)
    ensures Inv(RequestMore(s, k))
  {
    hide Kept, SendList, RequestPinned, PinsAsked, RefreshBlocked;
    if k in s.loads && s.loads[k].requestId == 0 {
      SendListKeeps(s, k);
      PinnedKeeps(SendList(s, k), k);
      RequestMoreAsksPinned(s, k);
      RefreshKeeps(RequestPinned(SendList(s, k), k));
    }
  }

  lemma RefreshKeeps(s: State)
    requires Inv(s)
    ensures Inv(RefreshBlocked(s))
  {
    hide ListsAlive, PinsAlive, LoadsFit, Counted, ReloadsFit, PinsAsked;
  }

  lemma StartCounts(keys: set<Key>, posted: seq<Key>, started: multiset<Key>, k: Key)
    requires Counted(keys, posted, started) && k !in keys && k != Main
    ensures Counted(keys + {k}, posted, started + multiset{k})
  {
  }

  lemma StartFits(loads: map<Key, Load>, wire: Wire, k: Key)
    requires ListsAlive(loads, wire.lists, wire.lastId) && PinsAlive(loads, wire.pins, wire.lastId)
    requires LoadsFit(loads, wire.pins) && PinsAsked(loads) && k !in loads
    ensures var u := loads[k := FRESH];
            && ListsAlive(u, wire.lists, wire.lastId) && PinsAlive(u, wire.pins, wire.lastId)
            && LoadsFit(u, wire.pins) && PinsAsked(u)
  {
  }

  lemma StartKeeps(s: State, k: Key)
    requires Inv(s)
    ensures Inv(Start(s, k))
  {
    hide ListsAlive, PinsAlive, LoadsFit, Counted, PinsAsked, ReloadsFit;
    if k != Main && k !in s.loads {
      assert s.loads[k := FRESH].Keys == s.loads.Keys + {k};
      StartCounts(s.loads.Keys, s.posted, s.started, k);
      StartFits(s.loads, s.wire, k);
    }
  }

  lemma MoreIfNeededKeeps(s: State, needs: Needs)
    requires Inv(s)
    ensures Inv(MoreIfNeeded(s, needs))
  {
    hide Inv, RequestMore;
    RequestMoreKeeps(Start(s, Main), Main) by { StartKeeps(s, Main); }
    match needs.archive case None => case Some(id) => RequestMoreKeeps(s, Folder(id));
  }

  // ---------- answers ----------

  /** What holds of the load whose list request was just answered. */
  ghost predicate Answered(s: State, k: Key) {
    && Inv(s) && k in s.loads && s.loads[k].requestId != 0 && !s.loads[k].listReceived
    && forall id :: id in s.wire.lists ==> s.wire.lists[id].key != k
  }

  lemma ListAnswerFinds(s: State, id: nat)
    requires Inv(s) && id in s.wire.lists
    ensures Answered(s.(wire := ListAnswered(s.wire, id)), s.wire.lists[id].key)
  {
    hide PinsAlive, LoadsFit, Counted, ReloadsFit, PinsAsked;
  }

  lemma DropCounts(loads: map<Key, Load>, posted: seq<Key>, started: multiset<Key>, k: Key)
    requires Counted(loads.Keys, posted, started) && k in loads
    ensures Counted((loads - {k}).Keys, posted + [k], started)
  {
    assert (loads - {k}).Keys == loads.Keys - {k};
    assert multiset(posted + [k]) == multiset(posted) + multiset{k};
  }

  lemma DropKeeps(s: State, k: Key)
    requires k in s.loads && !s.crashed
    requires ListsAlive(s.loads, s.wire.lists, s.wire.lastId) && PinsAlive(s.loads, s.wire.pins, s.wire.lastId)
    requires Counted(s.loads.Keys, s.posted, s.started) && PinsAsked(s.loads)
    requires ReloadsFit(s.wire.reloads, s.pinnedReloads, s.wire.lastId)
    requires forall h :: h in s.loads && h != k ==> LoadFits(s.wire.pins, h, s.loads[h])
    requires forall id :: id in s.wire.lists ==> s.wire.lists[id].key != k
    requires forall id :: id in s.wire.pins ==> s.wire.pins[id] != k
    ensures Inv(s.(loads := s.loads - {k}, posted := s.posted + [k]))
  {
    DropCounts(s.loads, s.posted, s.started, k);
    hide ReloadsFit, Counted, LoadFits;
    var loads := s.loads - {k};
    assert ListsAlive(loads, s.wire.lists, s.wire.lastId) by { hide PinsAlive, PinsAsked; }
    assert PinsAlive(loads, s.wire.pins, s.wire.lastId) by { hide ListsAlive, PinsAsked; }
    assert PinsAsked(loads) by { hide ListsAlive, PinsAlive; }
    hide ListsAlive, PinsAlive, PinsAsked;
  }

  lemma ReceiveListKeeps(s: State, k: Key)
    requires Answered(s, k)
    ensures Inv(ReceiveList(s, k))
  {
    var u := s.(loads := s.loads[k := s.loads[k].(listReceived := true)]);
    SameKeys(s.loads, k, u.loads[k]);
    hide Counted, ReloadsFit;
    assert ListsAlive(u.loads, u.wire.lists, u.wire.lastId) by { hide PinsAlive, LoadsFit; }
    assert PinsAlive(u.loads, u.wire.pins, u.wire.lastId) by { hide ListsAlive, LoadsFit; }
    hide ListsAlive;
    if u.loads[k].pinnedReceived { DropKeeps(u, k); }
  }

  lemma UpdateOffsetKeeps(s: State, k: Key, dialogs: seq<Dialog>, messages: seq<Message>)
    requires Answered(s, k)
    ensures Inv(UpdateOffset(s, k, dialogs, messages))
  {
    hide NextOffset, ReceiveList;
    match NextOffset(dialogs, messages)
    case None => hide Answered, Inv; ReceiveListKeeps(s, k);
    case Some(offset) =>
      SameKeys(s.loads, k, s.loads[k].(offset := offset, requestId := 0));
      hide Counted, ReloadsFit;
  }

  lemma TakeReplyKeeps(s: State, k: Key, reply: Reply)
    requires Answered(s, k)
    ensures Inv(TakeReply(s, k, reply))
  {
    assert Inv(s);
    hide Inv, Answered, ReceiveList, UpdateOffset;
    match reply {
      case NotModified =>
      case Everything => ReceiveListKeeps(s, k);
      case Slice(dialogs, messages) => UpdateOffsetKeeps(s, k, dialogs, messages);
    }
  }

  lemma ListDoneKeeps(s: State, k: Key, reply: Reply, needs: Needs)
    requires Answered(s, k)
    ensures Inv(ListDone(s, k, reply, needs))
  {
    hide Inv, Answered, TakeReply, MoreIfNeeded, RefreshBlocked;
    TakeReplyKeeps(s, k, reply);
    var u := TakeReply(s, k, reply);
    RefreshKeeps(u);
    MoreIfNeededKeeps(u, needs);
    MoreIfNeededKeeps(RefreshBlocked(u), needs);
  }

  lemma ListFailedKeeps(s: State, k: Key)
    requires Answered(s, k)
    ensures Inv(ListFailed(s, k))
  {
    SameKeys(s.loads, k, s.loads[k].(requestId := 0));
    hide Counted, ReloadsFit;
  }

  /** The tables when the request of a load's pinned dialogs is answered. */
  lemma PinTaken(loads: map<Key, Load>, pins: map<nat, Key>, lastId: nat, id: nat, l: Load)
    requires PinsAlive(loads, pins, lastId) && LoadsFit(loads, pins) && PinsAsked(loads) && id in pins
    requires l == loads[pins[id]].(pinnedRequestId := 0, pinnedReceived := true)
    ensures var k := pins[id];
            && PinsAlive(loads[k := l], pins - {id}, lastId) && PinsAsked(loads[k := l])
            && (forall i :: i in pins - {id} ==> (pins - {id})[i] != k)
            && (forall h :: h in loads && h != k ==> LoadFits(pins - {id}, h, loads[h]))
  {
  }

  lemma PinAnswersKeeps(s: State, id: nat)
    requires Inv(s) && id in s.wire.pins
    ensures Inv(Step(s, PinAnswers(id)))
  {
    var k := s.wire.pins[id];
    var u := s.(wire := PinAnswered(s.wire, id),
                loads := s.loads[k := s.loads[k].(pinnedRequestId := 0, pinnedReceived := true)]);
    SameKeys(s.loads, k, u.loads[k]);
    PinTaken(s.loads, s.wire.pins, s.wire.lastId, id, u.loads[k]);
    ListsStay(s.loads, s.wire.lists, s.wire.lastId, u.wire.lastId, k, u.loads[k]);
    hide Counted, ReloadsFit, PinsAlive, PinsAsked, LoadsFit;
    if u.loads[k].listReceived {
      hide LoadFits;
      assert forall i :: i in u.wire.lists ==> u.wire.lists[i].key != k;
      DropKeeps(u, k);
    } else {
      hide ListsAlive;
      assert LoadFits(u.wire.pins, k, u.loads[k]);
      AllFit(u.loads, u.wire.pins, k);
    }
  }

  lemma AllFit(loads: map<Key, Load>, pins: map<nat, Key>, k: Key)
    requires k in loads && LoadFits(pins, k, loads[k])
    requires forall h :: h in loads && h != k ==> LoadFits(pins, h, loads[h])
    ensures LoadsFit(loads, pins)
  {
    hide LoadFits;
  }

  lemma OneMoreReload(reloads: map<nat, Key>, pinnedReloads: set<Key>, lastId: nat, k: Key)
    requires ReloadsFit(reloads, pinnedReloads, lastId) && k !in pinnedReloads
    ensures ReloadsFit(reloads[lastId + 1 := k], pinnedReloads + {k}, lastId + 1)
  {
    var u := reloads[lastId + 1 := k];
    assert lastId + 1 in u && u[lastId + 1] == k;
    forall h | h in pinnedReloads
      ensures ReloadFor(u, h)
    {
      var id :| id in reloads && reloads[id] == h;
      assert id in u && u[id] == h;
    }
  }

  lemma ReloadKeeps(s: State, k: Key)
    requires Inv(s)
    ensures Inv(Reload(s, k))
  {
    hide LoadsFit, Counted, PinsAsked, ReloadsFit;
    if k !in s.pinnedReloads { OneMoreReload(s.wire.reloads, s.pinnedReloads, s.wire.lastId, k); }
  }

  lemma OneReloadLess(reloads: map<nat, Key>, pinnedReloads: set<Key>, lastId: nat, id: nat)
    requires ReloadsFit(reloads, pinnedReloads, lastId) && id in reloads
    ensures ReloadsFit(reloads - {id}, pinnedReloads - {reloads[id]}, lastId)
  {
    var u := reloads - {id};
    forall h | h in pinnedReloads && h != reloads[id]
      ensures ReloadFor(u, h)
    {
      var i :| i in reloads && reloads[i] == h;
      assert i in u && u[i] == h;
    }
  }

  lemma ReloadAnswersKeeps(s: State, id: nat)
    requires Inv(s) && id in s.wire.reloads
    ensures Inv(Step(s, ReloadAnswers(id)))
  {
    hide ListsAlive, PinsAlive, LoadsFit, Counted, PinsAsked, ReloadsFit;
    OneReloadLess(s.wire.reloads, s.pinnedReloads, s.wire.lastId, id);
  }

  lemma UnblockKeeps(s: State, now: int, max: int)
    requires Inv(s)
    ensures Inv(Unblock(s, now, max))
  {
    hide ListsAlive, PinsAlive, LoadsFit, Counted, PinsAsked, ReloadsFit, RefreshBlocked, RequestMore, Start;
    if Main in s.loads {
      var date := s.loads[Main].offset.date;
      var u := s.(till := (if date != 0 then date else now) - max);
      RefreshKeeps(u);
      hide Inv;
      StartKeeps(RefreshBlocked(u), Main);
      RequestMoreKeeps(Start(RefreshBlocked(u), Main), Main);
    }
  }

  lemma StepKeeps(s: State, e: Event)
    requires Inv(s) && Possible(s, e)
    ensures Inv(Step(s, e))
  {
    hide Inv, RequestMore, MoreIfNeeded, ListDone, PinDone, Reload, Unblock, Answered, ListFailed, Start;
    match e
    case Asked(k) => StartKeeps(s, k); RequestMoreKeeps(Start(s, k), k);
    case AskedMore(needs) => MoreIfNeededKeeps(s, needs);
    case Unblocked(now, max) => UnblockKeeps(s, now, max);
    case Reloaded(k) => ReloadKeeps(s, k);
    case ListReplied(id, reply, needs) =>
      ListAnswerFinds(s, id);
      ListDoneKeeps(s.(wire := ListAnswered(s.wire, id)), s.wire.lists[id].key, reply, needs);
    case ListFails(id) =>
      ListAnswerFinds(s, id);
      ListFailedKeeps(s.(wire := ListAnswered(s.wire, id)), s.wire.lists[id].key);
    case PinAnswers(id) => PinAnswersKeeps(s, id);
    case ReloadAnswers(id) => ReloadAnswersKeeps(s, id);
  }

  // ---------- runs ----------

  ghost predicate IsRun(states: seq<State>, events: seq<Event>) {
    && |states| == |events| + 1
    && states[0] == INITIAL
    && forall i :: 0 <= i < |events| ==> Possible(states[i], events[i]) && states[i + 1] == Step(states[i], events[i])
  }

  lemma {:induction false} RunKeeps(states: seq<State>, events: seq<Event>, n: nat)
    requires IsRun(states, events) && n < |states|
    ensures Inv(states[n])
  {
    if n > 0 {
      hide Step, Inv, Possible;
      RunKeeps(states, events, n - 1);
      StepKeeps(states[n - 1], events[n - 1]);
    }
  }

  /**
    In every run: the fail handler never misses its load; a load has at most one list request and one pinned request in
    flight; each load started was announced once if it is gone and not yet if it is there, the main one only ever
    once; no load has both parts; and one that has its list waits for its pinned dialogs.
   */
  lemma LoadsAreSound(states: seq<State>, events: seq<Event>, n: nat)
    requires IsRun(states, events) && n < |states|
    ensures var s := states[n];
            && !s.crashed
            && (forall i, j :: i in s.wire.lists && j in s.wire.lists ==>
                  s.wire.lists[i].key == s.wire.lists[j].key ==> i == j)
            && (forall i, j :: i in s.wire.pins && j in s.wire.pins && s.wire.pins[i] == s.wire.pins[j] ==> i == j)
            && (forall id | id in s.wire.lists :: s.wire.lists[id].key in s.loads)
            && (forall k :: multiset(s.posted)[k] + (if k in s.loads then 1 else 0) == s.started[k])
            && multiset(s.posted)[Main] <= 1
            && (forall k | k in s.loads :: !(s.loads[k].listReceived && s.loads[k].pinnedReceived))
            && (forall k | k in s.loads && s.loads[k].listReceived ::
                  s.loads[k].pinnedRequestId in s.wire.pins && s.wire.pins[s.loads[k].pinnedRequestId] == k)
  {
    RunKeeps(states, events, n);
    var s := states[n];
    hide Step;
    assert multiset(s.posted)[Main] <= 1 by { hide ListsAlive, PinsAlive, LoadsFit, ReloadsFit; }
  }

  /** The reply holds the last of the list. */
  predicate Last(reply: Reply) {
    match reply
    case NotModified => false
    case Everything => true
    case Slice(dialogs, messages) => NextOffset(dialogs, messages) == None
  }

  /** The load whose missing part the event brings. */
  function Completed(s: State, e: Event): Option<Key>
    requires Possible(s, e)
  {
    match e
    case ListReplied(id, reply, _) =>
      var k := s.wire.lists[id].key;
      if Last(reply) && k in s.loads && s.loads[k].pinnedReceived then Some(k) else None
    case PinAnswers(id) =>
      var k := s.wire.pins[id];
      if k in s.loads && s.loads[k].listReceived then Some(k) else None
    case _ => None
  }

  lemma RequestMoreLoads(s: State, k: Key)
    ensures RequestMore(s, k).loads.Keys == s.loads.Keys && RequestMore(s, k).posted == s.posted
  {
    if k in s.loads {
      SameKeys(s.loads, k, SendList(s, k).loads[k]);
      SameKeys(SendList(s, k).loads, k, RequestPinned(SendList(s, k), k).loads[k]);
    }
  }

  lemma MoreIfNeededLoads(s: State, needs: Needs)
    ensures MoreIfNeeded(s, needs).loads.Keys == s.loads.Keys && MoreIfNeeded(s, needs).posted == s.posted
  {
    RequestMoreLoads(s, Main);
    match needs.archive case None => case Some(id) => RequestMoreLoads(s, Folder(id));
    hide RequestMore;
  }

  lemma TakeReplyLoads(s: State, k: Key, reply: Reply)
    requires k in s.loads
    ensures var u, drops := TakeReply(s, k, reply), Last(reply) && s.loads[k].pinnedReceived;
            && u.loads.Keys == (if drops then s.loads.Keys - {k} else s.loads.Keys)
            && u.posted == (if drops then s.posted + [k] else s.posted)
  {
    hide NextOffset;
    SameKeys(s.loads, k, s.loads[k].(listReceived := true));
    if reply.Slice? && NextOffset(reply.dialogs, reply.messages).Some? {
      SameKeys(s.loads, k, s.loads[k].(offset := NextOffset(reply.dialogs, reply.messages).value, requestId := 0));
    }
  }

  lemma ListDoneLoads(s: State, k: Key, reply: Reply, needs: Needs)
    requires k in s.loads
    ensures var u, drops := ListDone(s, k, reply, needs), Last(reply) && s.loads[k].pinnedReceived;
            && u.loads.Keys == (if drops then s.loads.Keys - {k} else s.loads.Keys)
            && u.posted == (if drops then s.posted + [k] else s.posted)
  {
    var u := TakeReply(s, k, reply);
    TakeReplyLoads(s, k, reply);
    hide TakeReply, MoreIfNeeded, Last;
    MoreIfNeededLoads(u, needs);
    MoreIfNeededLoads(RefreshBlocked(u), needs);
  }

  lemma ListFailedLoads(s: State, k: Key)
    requires k in s.loads
    ensures ListFailed(s, k).loads.Keys == s.loads.Keys && ListFailed(s, k).posted == s.posted
  {
    SameKeys(s.loads, k, s.loads[k].(requestId := 0));
  }

  lemma PinDoneLoads(s: State, k: Key)
    requires k in s.loads
    ensures var u, drops := PinDone(s, k), s.loads[k].listReceived;
            && u.loads.Keys == (if drops then s.loads.Keys - {k} else s.loads.Keys)
            && u.posted == (if drops then s.posted + [k] else s.posted)
  {
    SameKeys(s.loads, k, s.loads[k].(pinnedRequestId := 0, pinnedReceived := true));
  }

  /** The loads that go, and the announcements made, from one state to the next. */
  ghost predicate Drops(s: State, u: State, c: Option<Key>) {
    && (forall k | k in s.loads :: k !in u.loads <==> c == Some(k))
    && u.posted == match c case None => s.posted case Some(k) => s.posted + [k]
  }

  lemma DropsByKeys(s: State, u: State, c: Option<Key>)
    requires s.loads.Keys <= u.loads.Keys + (match c case None => {} case Some(k) => {k})
    requires c.Some? ==> c.value !in u.loads.Keys
    requires u.posted == match c case None => s.posted case Some(k) => s.posted + [k]
    ensures Drops(s, u, c)
  {
    assert forall k :: k in s.loads <==> k in s.loads.Keys;
    assert forall k :: k in u.loads <==> k in u.loads.Keys;
  }

  lemma StepDrops(s: State, e: Event)
    requires Inv(s) && Possible(s, e)
    ensures Drops(s, Step(s, e), Completed(s, e))
  {
    assert e.ListReplied? || e.ListFails? ==> s.wire.lists[e.id].key in s.loads;
    assert e.PinAnswers? ==> s.wire.pins[e.id] in s.loads;
    hide Inv, Last, ListDone, RequestMore, MoreIfNeeded, ListFailed, PinDone, RefreshBlocked, Drops;
    match e {
      case Asked(k) => RequestMoreLoads(Start(s, k), k);
      case AskedMore(needs) => MoreIfNeededLoads(s, needs);
      case Unblocked(now, max) => UnblockLoads(s, now, max);
      case Reloaded(k) =>
      case ListReplied(id, reply, needs) =>
        ListDoneLoads(s.(wire := ListAnswered(s.wire, id)), s.wire.lists[id].key, reply, needs);
      case ListFails(id) => ListFailedLoads(s.(wire := ListAnswered(s.wire, id)), s.wire.lists[id].key);
      case PinAnswers(id) => PinDoneLoads(s.(wire := PinAnswered(s.wire, id)), s.wire.pins[id]);
      case ReloadAnswers(id) =>
    }
    hide Unblock;
    DropsByKeys(s, Step(s, e), Completed(s, e));
  }

  lemma UnblockLoads(s: State, now: int, max: int)
    ensures Unblock(s, now, max).loads.Keys == s.loads.Keys && Unblock(s, now, max).posted == s.posted
  {
    if Main in s.loads {
      var date := s.loads[Main].offset.date;
      var u := s.(till := (if date != 0 then date else now) - max);
      assert RefreshBlocked(u).loads == s.loads && RefreshBlocked(u).posted == s.posted;
      hide RequestMore, RefreshBlocked;
      RequestMoreLoads(RefreshBlocked(u), Main);
    }
  }

  /** A load is dropped, and its end announced, by exactly the answer that brings the part it still misses. */
  lemma DropsWhenComplete(states: seq<State>, events: seq<Event>, n: nat)
    requires IsRun(states, events) && n < |events|
    ensures var s, u := states[n], states[n + 1];
            && (forall k | k in s.loads :: k !in u.loads <==> Completed(s, events[n]) == Some(k))
            && u.posted == match Completed(s, events[n]) case None => s.posted case Some(k) => s.posted + [k]
  {
    RunKeeps(states, events, n);
    hide Possible, Step, Inv, Completed;
    StepDrops(states[n], events[n]);
  }

  /** At most one reload of a list's pinned dialogs is in flight, and it is known. */
  lemma ReloadsAreSound(states: seq<State>, events: seq<Event>, n: nat)
    requires IsRun(states, events) && n < |states|
    ensures var s := states[n];
            && (forall i, j :: i in s.wire.reloads && j in s.wire.reloads ==>
                  s.wire.reloads[i] == s.wire.reloads[j] ==> i == j)
            && (forall k :: k in s.pinnedReloads <==> ReloadFor(s.wire.reloads, k))
  {
    hide *;
    RunKeeps(states, events, n);
    ReloadsKnown(states[n]);
  }

  lemma ReloadsKnown(s: State)
    requires Inv(s)
    ensures forall i, j :: i in s.wire.reloads && j in s.wire.reloads ==>
              s.wire.reloads[i] == s.wire.reloads[j] ==> i == j
    ensures forall k :: k in s.pinnedReloads <==> ReloadFor(s.wire.reloads, k)
  {
    hide ListsAlive, PinsAlive, LoadsFit, Counted, PinsAsked;
  }

  /** Asking to reload leaves one such request in flight: the one that was there, or a new one. */
  lemma ReloadRemembers(states: seq<State>, events: seq<Event>, n: nat)
    requires IsRun(states, events) && n < |events| && events[n].Reloaded?
    ensures ReloadFor(states[n + 1].wire.reloads, events[n].key)
    ensures events[n].key in states[n].pinnedReloads ==> states[n + 1] == states[n]
  {
    assert states[n + 1] == Reload(states[n], events[n].key);
    hide *;
    ReloadsAreSound(states, events, n + 1);
    ReloadIn(states[n], events[n].key);
  }

  lemma ReloadIn(s: State, k: Key)
    ensures k in Reload(s, k).pinnedReloads
    ensures k in s.pinnedReloads ==> Reload(s, k) == s
  {
  }

  // ---------- when a load gets stuck ----------

  /** Marked as being requested, with no request in flight and no list. */
  ghost predicate Stuck(s: State, k: Key) {
    && k in s.loads && s.loads[k].requestId != 0 && !s.loads[k].listReceived
    && forall id :: id in s.wire.lists ==> s.wire.lists[id].key != k
  }

  lemma SendListStuck(s: State, k: Key, h: Key)
    requires Stuck(s, k) && h in s.loads && h != k
    ensures Stuck(RequestPinned(SendList(s, h), h), k)
  {
  }

  lemma RequestMoreStuck(s: State, k: Key, h: Key)
    requires Stuck(s, k)
    ensures Stuck(RequestMore(s, h), k)
  {
    if h in s.loads && h != k { SendListStuck(s, k, h); }
    hide SendList, RequestPinned;
  }

  lemma MoreIfNeededStuck(s: State, k: Key, needs: Needs)
    requires Stuck(s, k)
    ensures Stuck(MoreIfNeeded(s, needs), k)
  {
    RequestMoreStuck(Start(s, Main), k, Main);
    match needs.archive case None => case Some(id) => RequestMoreStuck(s, k, Folder(id));
    hide RequestMore, Stuck;
  }

  lemma TakeReplyStuck(s: State, k: Key, h: Key, reply: Reply)
    requires Stuck(s, k) && h != k
    ensures Stuck(TakeReply(s, h, reply), k)
  {
    hide NextOffset;
  }

  lemma ListDoneStuck(s: State, k: Key, h: Key, reply: Reply, needs: Needs)
    requires Stuck(s, k) && h != k
    ensures Stuck(ListDone(s, h, reply, needs), k)
  {
    TakeReplyStuck(s, k, h, reply);
    var u := TakeReply(s, h, reply);
    assert Stuck(RefreshBlocked(u), k);
    hide Stuck, TakeReply, RefreshBlocked, MoreIfNeeded;
    MoreIfNeededStuck(u, k, needs);
    MoreIfNeededStuck(RefreshBlocked(u), k, needs);
  }

  lemma UnblockStuck(s: State, k: Key, now: int, max: int)
    requires Stuck(s, k)
    ensures Stuck(Unblock(s, now, max), k)
  {
    if Main in s.loads {
      var date := s.loads[Main].offset.date;
      var u := RefreshBlocked(s.(till := (if date != 0 then date else now) - max));
      assert Stuck(u, k);
      hide Stuck, RefreshBlocked, RequestMore;
      RequestMoreStuck(u, k, Main);
    }
  }

  lemma StepStuck(s: State, k: Key, e: Event)
    requires Stuck(s, k) && Possible(s, e)
    ensures Stuck(Step(s, e), k)
  {
    match e
    case Asked(h) => assert Stuck(Start(s, h), k); hide Stuck, Start, RequestMore; RequestMoreStuck(Start(s, h), k, h);
    case AskedMore(needs) => hide Stuck, MoreIfNeeded; MoreIfNeededStuck(s, k, needs);
    case Unblocked(now, max) => hide Stuck, Unblock; UnblockStuck(s, k, now, max);
    case Reloaded(h) =>
    case ListReplied(id, reply, needs) =>
      var u := s.(wire := ListAnswered(s.wire, id));
      assert Stuck(u, k) && s.wire.lists[id].key != k;
      hide Stuck, ListDone;
      ListDoneStuck(u, k, s.wire.lists[id].key, reply, needs);
    case ListFails(id) =>
    case PinAnswers(id) => PinDoneStuck(s.(wire := PinAnswered(s.wire, id)), k, s.wire.pins[id]);
    case ReloadAnswers(id) =>
  }

  lemma PinDoneStuck(s: State, k: Key, h: Key)
    requires Stuck(s, k)
    ensures Stuck(PinDone(s, h), k)
  {
  }

  /** After a reply that nothing was modified a load is never asked for again, and never ends. */
  lemma {:induction false} NotModifiedSticks(states: seq<State>, events: seq<Event>, m: nat, n: nat, id: nat,
        needs: Needs)
    requires IsRun(states, events) && m < n < |states| && events[m] == ListReplied(id, NotModified, needs)
    ensures id in states[m].wire.lists && Stuck(states[n], states[m].wire.lists[id].key)
  {
    if m + 1 < n {
      NotModifiedSticks(states, events, m, n - 1, id, needs);
      hide Step, Stuck;
      StepStuck(states[n - 1], states[m].wire.lists[id].key, events[n - 1]);
    } else {
      var s := states[m];
      RunKeeps(states, events, m);
      ListAnswerFinds(s, id);
      var u, k := s.(wire := ListAnswered(s.wire, id)), s.wire.lists[id].key;
      assert Stuck(u, k);
      assert Stuck(RefreshBlocked(u), k);
      hide Stuck, Inv, Answered, RefreshBlocked, MoreIfNeeded;
      MoreIfNeededStuck(u, k, needs);
      MoreIfNeededStuck(RefreshBlocked(u), k, needs);
    }
  }

  /** Every load that waits for its list, but for some, has the request it names in flight. */
  ghost predicate ListKnown(loads: map<Key, Load>, lists: map<nat, ListRequest>, but: set<Key>) {
    forall k :: k in loads && k !in but && loads[k].requestId != 0 && !loads[k].listReceived ==>
                  loads[k].requestId in lists && lists[loads[k].requestId].key == k
  }

  lemma SendListKnown(s: State, k: Key, but: set<Key>)
    requires ListsAlive(s.loads, s.wire.lists, s.wire.lastId) && ListKnown(s.loads, s.wire.lists, but) && k in s.loads
    ensures ListKnown(SendList(s, k).loads, SendList(s, k).wire.lists, but)
  {
  }

  lemma PinnedKnown(s: State, k: Key, but: set<Key>)
    requires ListKnown(s.loads, s.wire.lists, but)
    ensures ListKnown(RequestPinned(s, k).loads, RequestPinned(s, k).wire.lists, but)
  {
  }

  lemma RequestMoreKnown(s: State, k: Key, but: set<Key>)
    requires Inv(s) && ListKnown(s.loads, s.wire.lists, but)
    ensures ListKnown(RequestMore(s, k).loads, RequestMore(s, k).wire.lists, but)
  {
    hide PinsAlive, LoadsFit, Counted, ReloadsFit, PinsAsked, ListKnown, ListsAlive, SendList, RequestPinned;
    if k in s.loads {
      SendListKnown(s, k, but);
      PinnedKnown(SendList(s, k), k, but);
    }
  }

  lemma RequestKnown(s: State, k: Key, but: set<Key>)
    requires Inv(s) && ListKnown(s.loads, s.wire.lists, but)
    ensures ListKnown(Request(s, k).loads, Request(s, k).wire.lists, but)
  {
    StartKeeps(s, k);
    assert ListKnown(Start(s, k).loads, Start(s, k).wire.lists, but);
    hide Inv, ListKnown, Start, RequestMore;
    RequestMoreKnown(Start(s, k), k, but);
  }

  lemma MoreIfNeededKnown(s: State, needs: Needs, but: set<Key>)
    requires Inv(s) && ListKnown(s.loads, s.wire.lists, but)
    ensures ListKnown(MoreIfNeeded(s, needs).loads, MoreIfNeeded(s, needs).wire.lists, but)
  {
    hide Inv, ListKnown, Request, RequestMore;
    RequestKnown(s, Main, but);
    match needs.archive case None => case Some(id) => RequestMoreKnown(s, Folder(id), but);
  }

  /** The load a reply leaves as it is joins those that are excused. */
  function Excused(reply: Reply, k: Key, but: set<Key>): set<Key> { if reply.NotModified? then but + {k} else but }

  lemma TakeReplyKnown(s: State, k: Key, reply: Reply, but: set<Key>)
    requires k in s.loads && ListKnown(s.loads, s.wire.lists, but + {k})
    ensures ListKnown(TakeReply(s, k, reply).loads, TakeReply(s, k, reply).wire.lists, Excused(reply, k, but))
  {
    hide NextOffset, ReceiveList;
    ReceiveListKnown(s, k, but);
  }

  lemma ReceiveListKnown(s: State, k: Key, but: set<Key>)
    requires k in s.loads && ListKnown(s.loads, s.wire.lists, but + {k})
    ensures ListKnown(ReceiveList(s, k).loads, ReceiveList(s, k).wire.lists, but)
  {
  }

  lemma RefreshSame(s: State)
    ensures RefreshBlocked(s).loads == s.loads && RefreshBlocked(s).wire == s.wire
  {
  }

  lemma AnsweredLoad(s: State, k: Key)
    requires Answered(s, k)
    ensures k in s.loads
  {
  }

  lemma ListDoneKnown(s: State, k: Key, reply: Reply, needs: Needs, but: set<Key>)
    requires Answered(s, k) && ListKnown(s.loads, s.wire.lists, but + {k})
    ensures ListKnown(ListDone(s, k, reply, needs).loads, ListDone(s, k, reply, needs).wire.lists,
                Excused(reply, k, but))
  {
    hide Inv, Answered, ListKnown, TakeReply, MoreIfNeeded, RefreshBlocked;
    var u := TakeReply(s, k, reply);
    AnsweredLoad(s, k);
    RefreshSame(u);
    TakeReplyKnown(s, k, reply, but);
    TakeReplyKeeps(s, k, reply);
    RefreshKeeps(u);
    MoreIfNeededKnown(u, needs, Excused(reply, k, but));
    MoreIfNeededKnown(RefreshBlocked(u), needs, Excused(reply, k, but));
  }

  lemma TillKeeps(s: State, till: int)
    requires Inv(s)
    ensures Inv(s.(till := till))
  {
    hide ListsAlive, PinsAlive, LoadsFit, Counted, PinsAsked, ReloadsFit;
  }

  lemma UnblockKnown(s: State, now: int, max: int, but: set<Key>)
    requires Inv(s) && ListKnown(s.loads, s.wire.lists, but)
    ensures ListKnown(Unblock(s, now, max).loads, Unblock(s, now, max).wire.lists, but)
  {
    hide Inv, ListKnown, Request, RefreshBlocked;
    if Main in s.loads {
      var date := s.loads[Main].offset.date;
      var till := (if date != 0 then date else now) - max;
      var u := s.(till := till);
      TillKeeps(s, till);
      RefreshKeeps(u);
      RefreshSame(u);
      assert Unblock(s, now, max) == Request(RefreshBlocked(u), Main);
      RequestKnown(RefreshBlocked(u), Main, but);
    }
  }

  /** The reply to the list request of a load says that nothing was modified. */
  predicate NotModifiedFor(s: State, e: Event, k: Key) {
    e.ListReplied? && e.reply.NotModified? && e.id in s.wire.lists && s.wire.lists[e.id].key == k
  }

  function LeftBy(s: State, e: Event): (keys: set<Key>)
    requires Possible(s, e)
    ensures forall k :: k in keys <==> NotModifiedFor(s, e, k)
  {
    if e.ListReplied? && e.reply.NotModified? then {s.wire.lists[e.id].key} else {}
  }

  lemma StepKnown(s: State, e: Event, but: set<Key>)
    requires Inv(s) && ListKnown(s.loads, s.wire.lists, but) && Possible(s, e)
    ensures ListKnown(Step(s, e).loads, Step(s, e).wire.lists, but + LeftBy(s, e))
  {
    hide Inv, ListKnown, Answered, Request, MoreIfNeeded, Unblock, Reload, ListDone, ListFailed, PinDone;
    assert but + {} == but;
    match e
    case Asked(k) => RequestKnown(s, k, but);
    case AskedMore(needs) => MoreIfNeededKnown(s, needs, but);
    case Unblocked(now, max) => UnblockKnown(s, now, max, but);
    case Reloaded(k) => ReloadSame(s, k);
    case ListReplied(id, reply, needs) =>
      ListAnswerFinds(s, id);
      AnswerKnown(s, id, but);
      ListDoneKnown(s.(wire := ListAnswered(s.wire, id)), s.wire.lists[id].key, reply, needs, but);
    case ListFails(id) =>
      AnswerKnown(s, id, but);
      ListFailedKnown(s.(wire := ListAnswered(s.wire, id)), s.wire.lists[id].key, but);
    case PinAnswers(id) => PinDoneKnown(s.(wire := PinAnswered(s.wire, id)), s.wire.pins[id], but);
    case ReloadAnswers(id) =>
  }

  lemma ReloadSame(s: State, k: Key)
    ensures Reload(s, k).loads == s.loads && Reload(s, k).wire.lists == s.wire.lists
  {
  }

  lemma ListFailedKnown(s: State, k: Key, but: set<Key>)
    requires ListKnown(s.loads, s.wire.lists, but + {k})
    ensures ListKnown(ListFailed(s, k).loads, ListFailed(s, k).wire.lists, but)
  {
  }

  lemma PinDoneKnown(s: State, k: Key, but: set<Key>)
    requires ListKnown(s.loads, s.wire.lists, but)
    ensures ListKnown(PinDone(s, k).loads, PinDone(s, k).wire.lists, but)
  {
  }

  lemma AnswerKnown(s: State, id: nat, but: set<Key>)
    requires Inv(s) && id in s.wire.lists && ListKnown(s.loads, s.wire.lists, but)
    ensures ListKnown(s.loads, s.wire.lists - {id}, but + {s.wire.lists[id].key})
  {
    hide PinsAlive, LoadsFit, Counted, ReloadsFit, PinsAsked;
  }

  /** The loads that got such a reply in the first n steps. */
  ghost function LeftIn(states: seq<State>, events: seq<Event>, n: nat): set<Key>
    requires IsRun(states, events) && n <= |events|
  {
    if n == 0 then {} else LeftIn(states, events, n - 1) + LeftBy(states[n - 1], events[n - 1])
  }

  ghost predicate NotModifiedIn(states: seq<State>, events: seq<Event>, n: nat, k: Key)
    requires n <= |events| <= |states|
  {
    exists i :: 0 <= i < n && NotModifiedFor(states[i], events[i], k)
  }

  lemma {:induction false} LeftInHas(states: seq<State>, events: seq<Event>, n: nat, k: Key)
    requires IsRun(states, events) && n <= |events|
    ensures k in LeftIn(states, events, n) <==> NotModifiedIn(states, events, n, k)
  {
    if n > 0 {
      LeftInHas(states, events, n - 1, k);
      hide Step, NotModifiedFor;
    }
  }

  lemma {:induction false} RunKnown(states: seq<State>, events: seq<Event>, n: nat)
    requires IsRun(states, events) && n < |states|
    ensures ListKnown(states[n].loads, states[n].wire.lists, LeftIn(states, events, n))
  {
    if n > 0 {
      RunKnown(states, events, n - 1);
      RunKeeps(states, events, n - 1);
      hide Inv, ListKnown, Step, Possible;
      StepKnown(states[n - 1], events[n - 1], LeftIn(states, events, n - 1));
    }
  }

  /**
    In every run a load is stuck exactly if such a reply came to its own list request; any other load that waits for
    its list has the request it names in flight.
   */
  lemma OnlyNotModifiedSticks(states: seq<State>, events: seq<Event>, n: nat, k: Key)
    requires IsRun(states, events) && n < |states|
    ensures var s := states[n];
            && (Stuck(s, k) <==> NotModifiedIn(states, events, n, k))
            && (k in s.loads && s.loads[k].requestId != 0 && !s.loads[k].listReceived && !Stuck(s, k) ==>
                  s.loads[k].requestId in s.wire.lists && s.wire.lists[s.loads[k].requestId].key == k)
  {
    RunKnown(states, events, n);
    LeftInHas(states, events, n, k);
    if NotModifiedIn(states, events, n, k) {
      var m :| 0 <= m < n && NotModifiedFor(states[m], events[m], k);
      NotModifiedSticks(states, events, m, n, events[m].id, events[m].needs);
    }
    hide IsRun, LeftIn, NotModifiedIn;
  }

  /** The first list request of all may get that reply: the main load is stuck. */
  lemma MainMayStick() returns (states: seq<State>, events: seq<Event>)
    ensures events == [Asked(Main), ListReplied(1, NotModified, Needs(false, None))]
    ensures IsRun(states, events) && Stuck(states[2], Main)
  {
    events := [Asked(Main), ListReplied(1, NotModified, Needs(false, None))];
    var asked := Step(INITIAL, events[0]);
    assert 1 in asked.wire.lists && asked.wire.lists[1].key == Main;
    states := [INITIAL, asked, Step(asked, events[1])];
  }

  // ---------- what is asked for ----------

  /** A list request carries the offset its load has reached. */
  ghost predicate Carries(loads: map<Key, Load>, lists: map<nat, ListRequest>) {
    forall id :: id in lists ==>
      && lists[id].key in loads && lists[id].offset == loads[lists[id].key].offset
      && lists[id].firstLoad == (lists[id].offset.date == 0)
  }

  /** The same loads, where they were. */
  ghost predicate SameOffsets(loads: map<Key, Load>, after: map<Key, Load>) {
    loads.Keys == after.Keys && forall k :: k in loads ==> after[k].offset == loads[k].offset
  }

  lemma SendListCarries(s: State, k: Key)
    requires Carries(s.loads, s.wire.lists) && k in s.loads
    ensures Carries(SendList(s, k).loads, SendList(s, k).wire.lists) && SameOffsets(s.loads, SendList(s, k).loads)
  {
    SameKeys(s.loads, k, SendList(s, k).loads[k]);
  }

  lemma PinnedCarries(s: State, k: Key)
    requires Carries(s.loads, s.wire.lists)
    ensures Carries(RequestPinned(s, k).loads, RequestPinned(s, k).wire.lists)
    ensures SameOffsets(s.loads, RequestPinned(s, k).loads)
  {
    if k in s.loads && !s.loads[k].pinnedReceived && s.loads[k].pinnedRequestId == 0 {
      SameKeys(s.loads, k, RequestPinned(s, k).loads[k]);
    }
  }

  lemma RequestMoreCarries(s: State, k: Key)
    requires Carries(s.loads, s.wire.lists)
    ensures Carries(RequestMore(s, k).loads, RequestMore(s, k).wire.lists)
    ensures SameOffsets(s.loads, RequestMore(s, k).loads)
  {
    hide SendList, RequestPinned, Carries;
    if k in s.loads {
      SendListCarries(s, k);
      PinnedCarries(SendList(s, k), k);
    }
  }

  lemma MoreIfNeededCarries(s: State, needs: Needs)
    requires Carries(s.loads, s.wire.lists)
    ensures Carries(MoreIfNeeded(s, needs).loads, MoreIfNeeded(s, needs).wire.lists)
    ensures SameOffsets(s.loads, MoreIfNeeded(s, needs).loads)
  {
    hide RequestMore, Carries;
    RequestMoreCarries(s, Main);
    match needs.archive case None => case Some(id) => RequestMoreCarries(s, Folder(id));
  }

  /** Where a load is after a reply to its list request: at the offset of a slice that has one. */
  function OffsetAfter(offset: Offset, reply: Reply): Offset {
    match reply
    case Slice(dialogs, messages) =>
      (match NextOffset(dialogs, messages) case None => offset case Some(next) => next)
    case _ => offset
  }

  /** One load's list was answered, and the load may have moved or gone. */
  ghost predicate Moved(s: State, u: State, k: Key, offset: Offset) {
    && Carries(u.loads, u.wire.lists)
    && forall h :: h in u.loads ==>
         h in s.loads && u.loads[h].offset == if h == k then offset else s.loads[h].offset
  }

  lemma ReceiveListMoves(s: State, k: Key)
    requires Carries(s.loads, s.wire.lists) && k in s.loads
    requires forall id :: id in s.wire.lists ==> s.wire.lists[id].key != k
    ensures Moved(s, ReceiveList(s, k), k, s.loads[k].offset)
  {
  }

  lemma TakeReplyMoves(s: State, k: Key, reply: Reply)
    requires Carries(s.loads, s.wire.lists) && k in s.loads
    requires forall id :: id in s.wire.lists ==> s.wire.lists[id].key != k
    ensures Moved(s, TakeReply(s, k, reply), k, OffsetAfter(s.loads[k].offset, reply))
  {
    hide NextOffset, ReceiveList;
    ReceiveListMoves(s, k);
  }

  lemma ListDoneMoves(s: State, k: Key, reply: Reply, needs: Needs)
    requires Carries(s.loads, s.wire.lists) && k in s.loads
    requires forall id :: id in s.wire.lists ==> s.wire.lists[id].key != k
    ensures Moved(s, ListDone(s, k, reply, needs), k, OffsetAfter(s.loads[k].offset, reply))
  {
    hide TakeReply, MoreIfNeeded, OffsetAfter, Carries, RefreshBlocked, Moved;
    TakeReplyMoves(s, k, reply);
    var u := TakeReply(s, k, reply);
    RefreshSame(u);
    if k == Main && (Main !in u.loads || !u.loads[Main].listReceived) {
      NeededMoves(s, u, RefreshBlocked(u), k, OffsetAfter(s.loads[k].offset, reply), needs);
    } else {
      NeededMoves(s, u, u, k, OffsetAfter(s.loads[k].offset, reply), needs);
    }
  }

  lemma NeededMoves(s: State, u: State, v: State, k: Key, offset: Offset, needs: Needs)
    requires Moved(s, u, k, offset) && v.loads == u.loads && v.wire == u.wire
    ensures Moved(s, MoreIfNeeded(v, needs), k, offset)
  {
    hide Carries, MoreIfNeeded;
    MoreIfNeededCarries(v, needs);
    SameKeysHave(v.loads, MoreIfNeeded(v, needs).loads);
  }

  lemma SameKeysHave(loads: map<Key, Load>, after: map<Key, Load>)
    requires loads.Keys == after.Keys
    ensures forall k :: k in after <==> k in loads
  {
    forall k ensures k in after <==> k in loads { assert k in after.Keys <==> k in loads.Keys; }
  }

  /** The load that a reply to a list request answers. */
  function OffsetBy(s: State, e: Event, k: Key): Offset {
    if k !in s.loads then START
    else if e.ListReplied? && e.id in s.wire.lists && s.wire.lists[e.id].key == k
    then OffsetAfter(s.loads[k].offset, e.reply)
    else s.loads[k].offset
  }

  ghost predicate Moves(s: State, u: State, e: Event) {
    && Carries(u.loads, u.wire.lists)
    && forall k :: k in u.loads ==> u.loads[k].offset == OffsetBy(s, e, k)
  }

  lemma StartMoves(s: State, k: Key)
    requires Carries(s.loads, s.wire.lists)
    ensures Carries(Start(s, k).loads, Start(s, k).wire.lists)
    ensures forall h :: h in Start(s, k).loads ==>
              Start(s, k).loads[h].offset == if h in s.loads then s.loads[h].offset else START
  {
  }

  lemma SameMoves(s: State, v: State, u: State, e: Event)
    requires SameOffsets(v.loads, u.loads) && Carries(u.loads, u.wire.lists) && !e.ListReplied?
    requires forall k :: k in v.loads ==> v.loads[k].offset == if k in s.loads then s.loads[k].offset else START
    ensures Moves(s, u, e)
  {
    SameKeysHave(v.loads, u.loads);
    hide Carries;
  }

  lemma AnswerLeaves(s: State, id: nat)
    requires Inv(s) && Carries(s.loads, s.wire.lists) && id in s.wire.lists
    ensures var k, lists := s.wire.lists[id].key, s.wire.lists - {id};
            k in s.loads && Carries(s.loads, lists) && forall i :: i in lists ==> lists[i].key != k
  {
    hide PinsAlive, LoadsFit, Counted, ReloadsFit, PinsAsked;
  }

  lemma MovedMoves(s: State, u: State, id: nat, reply: Reply, needs: Needs)
    requires id in s.wire.lists && s.wire.lists[id].key in s.loads
    requires var k := s.wire.lists[id].key; Moved(s, u, k, OffsetAfter(s.loads[k].offset, reply))
    ensures Moves(s, u, ListReplied(id, reply, needs))
  {
    hide Carries, OffsetAfter;
  }

  lemma ListRepliedMoves(s: State, id: nat, reply: Reply, needs: Needs)
    requires Inv(s) && Carries(s.loads, s.wire.lists) && id in s.wire.lists
    ensures Moves(s, ListDone(s.(wire := ListAnswered(s.wire, id)), s.wire.lists[id].key, reply, needs),
              ListReplied(id, reply, needs))
  {
    hide Inv, Carries, ListDone, OffsetAfter, Moves;
    var k, w := s.wire.lists[id].key, s.(wire := ListAnswered(s.wire, id));
    AnswerLeaves(s, id);
    ListDoneMoves(w, k, reply, needs);
    assert Moved(s, ListDone(w, k, reply, needs), k, OffsetAfter(s.loads[k].offset, reply));
    hide Moved;
    MovedMoves(s, ListDone(w, k, reply, needs), id, reply, needs);
  }

  lemma UnblockMoves(s: State, now: int, max: int)
    requires Carries(s.loads, s.wire.lists)
    ensures Moves(s, Unblock(s, now, max), Unblocked(now, max))
  {
    hide Carries, RequestMore, RefreshBlocked;
    if Main in s.loads {
      var date := s.loads[Main].offset.date;
      var u := s.(till := (if date != 0 then date else now) - max);
      RefreshSame(u);
      RequestMoreCarries(RefreshBlocked(u), Main);
      assert Unblock(s, now, max) == RequestMore(RefreshBlocked(u), Main);
      SameMoves(s, u, Unblock(s, now, max), Unblocked(now, max));
    }
  }

  lemma PinDoneMoves(s: State, id: nat)
    requires Inv(s) && Carries(s.loads, s.wire.lists) && id in s.wire.pins
    ensures Moves(s, Step(s, PinAnswers(id)), PinAnswers(id))
  {
    hide PinsAlive, LoadsFit, Counted, ReloadsFit, PinsAsked;
  }

  lemma ListFailsMoves(s: State, id: nat)
    requires Carries(s.loads, s.wire.lists) && id in s.wire.lists
    ensures Moves(s, Step(s, ListFails(id)), ListFails(id))
  {
  }

  lemma StepMoves(s: State, e: Event)
    requires Inv(s) && Carries(s.loads, s.wire.lists) && Possible(s, e)
    ensures Moves(s, Step(s, e), e)
  {
    hide Inv, Carries, RequestMore, MoreIfNeeded, Unblock, ListDone, ListFailed, PinDone, Start, Moves;
    match e
    case Asked(k) =>
      StartMoves(s, k);
      RequestMoreCarries(Start(s, k), k);
      SameMoves(s, Start(s, k), RequestMore(Start(s, k), k), e);
    case AskedMore(needs) =>
      MoreIfNeededCarries(s, needs);
      SameMoves(s, s, MoreIfNeeded(s, needs), e);
    case Unblocked(now, max) => UnblockMoves(s, now, max);
    case Reloaded(k) =>
      ReloadSame(s, k);
      SameMoves(s, s, Reload(s, k), e);
    case ListReplied(id, reply, needs) => ListRepliedMoves(s, id, reply, needs);
    case ListFails(id) => ListFailsMoves(s, id);
    case PinAnswers(id) => PinDoneMoves(s, id);
    case ReloadAnswers(id) => SameMoves(s, s, Step(s, e), e);
  }

  /** The offset of the last slice that answered a load since it began; START before the first. */
  ghost function Reached(states: seq<State>, events: seq<Event>, n: nat, k: Key): Offset
    requires IsRun(states, events) && n <= |events|
  {
    if n == 0 || k !in states[n - 1].loads then START
    else
      var before, e := Reached(states, events, n - 1, k), events[n - 1];
      if e.ListReplied? && states[n - 1].wire.lists[e.id].key == k then OffsetAfter(before, e.reply) else before
  }

  lemma {:induction false} RunMoves(states: seq<State>, events: seq<Event>, n: nat)
    requires IsRun(states, events) && n < |states|
    ensures Carries(states[n].loads, states[n].wire.lists)
    ensures forall k :: k in states[n].loads ==> states[n].loads[k].offset == Reached(states, events, n, k)
  {
    if n > 0 {
      RunMoves(states, events, n - 1);
      RunKeeps(states, events, n - 1);
      assert Possible(states[n - 1], events[n - 1]);
      hide Inv, Carries, Step, OffsetAfter;
      StepMoves(states[n - 1], events[n - 1]);
    }
  }

  lemma DatedOffset(dialogs: seq<Dialog>, messages: seq<Message>)
    ensures NextOffset(dialogs, messages).Some? ==> NextOffset(dialogs, messages).value.date != 0
  {
  }

  lemma {:induction false} ReachedIsDated(states: seq<State>, events: seq<Event>, n: nat, k: Key)
    requires IsRun(states, events) && n <= |events|
    ensures Reached(states, events, n, k).date == 0 ==> Reached(states, events, n, k) == START
  {
    if n > 0 {
      ReachedIsDated(states, events, n - 1, k);
      var e := events[n - 1];
      if e.ListReplied? && e.reply.Slice? { DatedOffset(e.reply.dialogs, e.reply.messages); }
      hide IsRun, NextOffset;
    }
  }

  /**
    In every run a load is at the offset of the last slice that answered it, through failures, pinned answers and
    unblocking; a list request in flight asks from there, and as for a first load exactly if there was no such slice.
   */
  lemma RequestsGoOn(states: seq<State>, events: seq<Event>, n: nat)
    requires IsRun(states, events) && n < |states|
    ensures var s := states[n];
            && (forall k :: k in s.loads ==> s.loads[k].offset == Reached(states, events, n, k))
            && (forall id :: id in s.wire.lists ==>
                  var r := s.wire.lists[id];
                  && r.offset == Reached(states, events, n, r.key)
                  && (r.firstLoad <==> Reached(states, events, n, r.key) == START))
  {
    RunMoves(states, events, n);
    var s := states[n];
    forall id | id in s.wire.lists
      ensures s.wire.lists[id].firstLoad <==> Reached(states, events, n, s.wire.lists[id].key) == START
    {
      ReachedIsDated(states, events, n, s.wire.lists[id].key);
    }
    hide IsRun, Reached;
  }

  /** The load's list is being asked for from where it is, and its pinned dialogs are there or asked for. */
  ghost predicate Going(s: State, k: Key) {
    && k in s.loads && s.loads[k].requestId in s.wire.lists
    && s.wire.lists[s.loads[k].requestId] == ListRequest(k, s.loads[k].offset, s.loads[k].offset.date == 0)
    && (s.loads[k].pinnedReceived
        || (s.loads[k].pinnedRequestId in s.wire.pins && s.wire.pins[s.loads[k].pinnedRequestId] == k))
  }

  /** A load can be asked for. */
  predicate Free(s: State, k: Key) { k in s.loads && s.loads[k].requestId == 0 && !s.blocked }

  /** One list request more, for that load. */
  ghost predicate Goes(s: State, u: State, k: Key) {
    && Going(u, k) && k in s.loads && u.loads[k].offset == s.loads[k].offset
    && u.loads[k].requestId !in s.wire.lists && u.wire.lists.Keys == s.wire.lists.Keys + {u.loads[k].requestId}
  }

  lemma RequestMoreGoes(s: State, k: Key)
    requires Inv(s)
    ensures if Free(s, k) then Goes(s, RequestMore(s, k), k) else RequestMore(s, k) == s
  {
    hide PinsAlive, Counted, ReloadsFit, PinsAsked;
    if Free(s, k) {
      var v := SendList(s, k);
      var u := RequestPinned(v, k);
      assert v.loads[k].requestId !in s.wire.lists;
      assert u.loads[k].requestId == v.loads[k].requestId && u.wire.lists == v.wire.lists;
      RefreshSame(u);
      hide ListsAlive, LoadsFit, RefreshBlocked;
      assert RequestMore(s, k).loads == u.loads && RequestMore(s, k).wire == u.wire;
    }
  }

  /**
    In every run, asking for a list sends a request from where its load is, a new load's from the start, exactly if
    there is a load, no request is named by it and the date does not block.
   */
  lemma AskingGoes(states: seq<State>, events: seq<Event>, n: nat, k: Key)
    requires IsRun(states, events) && n < |events| && events[n] == Asked(k)
    ensures var s, u := Start(states[n], k), states[n + 1];
            if Free(s, k) then Goes(s, u, k) else u == s
  {
    RunKeeps(states, events, n);
    hide IsRun, Inv, Start, RequestMore, Goes;
    StartKeeps(states[n], k);
    RequestMoreGoes(Start(states[n], k), k);
  }

  /** What is to be asked for next: the main list while it is loading, then a needed archive. */
  function Next(s: State, needs: Needs): Option<Key> {
    if needs.exceptions then None
    else if Main in s.loads && !s.loads[Main].listReceived then Some(Main)
    else match needs.archive case None => None case Some(id) => Some(Folder(id))
  }

  lemma MoreIfNeededGoes(s: State, needs: Needs)
    requires Inv(s)
    ensures var k := Next(s, needs);
            if k.Some? && Free(s, k.value) then Goes(s, MoreIfNeeded(s, needs), k.value)
            else MoreIfNeeded(s, needs) == s
  {
    hide Inv, RequestMore, Goes;
    var k := Next(s, needs);
    if k.Some? { RequestMoreGoes(s, k.value); }
  }

  lemma AskingMoreGoes(states: seq<State>, events: seq<Event>, n: nat, needs: Needs)
    requires IsRun(states, events) && n < |events| && events[n] == AskedMore(needs)
    ensures var s, u, k := states[n], states[n + 1], Next(states[n], needs);
            if k.Some? && Free(s, k.value) then Goes(s, u, k.value) else u == s
  {
    RunKeeps(states, events, n);
    hide IsRun, Inv, MoreIfNeeded, Goes, Free, Next;
    MoreIfNeededGoes(states[n], needs);
  }

  /** The date lets no more be asked for: the offset has come down to it. */
  predicate DateBlocks(till: int, offset: Offset) { till > 0 && 0 < offset.date <= till }

  lemma RefreshBlocks(s: State)
    requires Main in s.loads && !s.loads[Main].listReceived && s.loads[Main].requestId == 0
    ensures RefreshBlocked(s).blocked <==> DateBlocks(s.till, s.loads[Main].offset)
    ensures RefreshBlocked(s).mayBlock <==> s.till > 0
  {
  }

  lemma MainGoes(s: State, needs: Needs)
    requires Inv(s) && Main in s.loads && !s.loads[Main].listReceived && s.loads[Main].requestId == 0
    requires !needs.exceptions
    ensures var u := MoreIfNeeded(RefreshBlocked(s), needs);
            && Main in u.loads && u.loads[Main].offset == s.loads[Main].offset
            && if DateBlocks(s.till, s.loads[Main].offset) then u.wire == s.wire && u.blocked else Goes(s, u, Main)
  {
    hide Inv, MoreIfNeeded, RefreshBlocked;
    RefreshBlocks(s);
    RefreshKeeps(s);
    RefreshSame(s);
    MoreIfNeededGoes(RefreshBlocked(s), needs);
  }

  lemma SliceFrees(s: State, reply: Reply)
    requires Answered(s, Main) && reply.Slice? && NextOffset(reply.dialogs, reply.messages).Some?
    ensures var u := TakeReply(s, Main, reply);
            && Inv(u) && Main in u.loads && !u.loads[Main].listReceived && u.loads[Main].requestId == 0
            && u.loads[Main].offset == NextOffset(reply.dialogs, reply.messages).value
            && u.till == s.till && u.wire == s.wire
  {
    TakeReplyKeeps(s, Main, reply);
    hide Inv, NextOffset;
  }

  /**
    In every run a slice of the main list that is not the last is followed by the request for the next one, from its
    offset, unless exceptions come first or that offset has come down to the date that blocks.
   */
  lemma SlicesGoOn(states: seq<State>, events: seq<Event>, n: nat)
    requires IsRun(states, events) && n < |events| && events[n].ListReplied? && !events[n].needs.exceptions
    requires states[n].wire.lists[events[n].id].key == Main && events[n].reply.Slice?
    requires NextOffset(events[n].reply.dialogs, events[n].reply.messages).Some?
    ensures var u, offset := states[n + 1], NextOffset(events[n].reply.dialogs, events[n].reply.messages).value;
            && Main in u.loads && u.loads[Main].offset == offset
            && if DateBlocks(states[n].till, offset)
               then u.blocked && forall id :: id in u.wire.lists ==> u.wire.lists[id].key != Main
               else Going(u, Main)
  {
    var s, e := states[n], events[n];
    RunKeeps(states, events, n);
    ListAnswerFinds(s, e.id);
    var w := s.(wire := ListAnswered(s.wire, e.id));
    assert states[n + 1] == ListDone(w, Main, e.reply, e.needs);
    assert forall id :: id in w.wire.lists ==> w.wire.lists[id].key != Main;
    hide IsRun, Inv, Answered, NextOffset, TakeReply, MoreIfNeeded, RefreshBlocked, Going;
    SliceFrees(w, e.reply);
    MainGoes(TakeReply(w, Main, e.reply), e.needs);
  }

  /**
    In every run unblocking moves the date below the offset, or below now at the start, and asks on from there unless
    the list is received, asked for, or the offset is still at the new date.
   */
  lemma UnblockingGoes(states: seq<State>, events: seq<Event>, n: nat, now: int, max: int)
    requires IsRun(states, events) && n < |events| && events[n] == Unblocked(now, max) && Main in states[n].loads
    ensures var s, u := states[n], states[n + 1];
            var offset := s.loads[Main].offset;
            && u.till == (if offset.date != 0 then offset.date - max else now - max)
            && (s.loads[Main].requestId == 0 && !s.loads[Main].listReceived ==>
                  if DateBlocks(u.till, offset) then u.wire == s.wire && u.blocked else Goes(s, u, Main))
  {
    var s := states[n];
    var date := s.loads[Main].offset.date;
    var v := s.(till := (if date != 0 then date else now) - max);
    RunKeeps(states, events, n);
    assert states[n + 1] == RequestMore(RefreshBlocked(v), Main);
    hide IsRun, Inv, RequestMore, RefreshBlocked;
    TillKeeps(s, v.till);
    RefreshKeeps(v);
    RefreshSame(v);
    if s.loads[Main].requestId == 0 && !s.loads[Main].listReceived { RefreshBlocks(v); }
    RequestMoreGoes(RefreshBlocked(v), Main);
    RequestMoreTill(RefreshBlocked(v));
    RefreshTill(v);
  }

  lemma RequestMoreTill(s: State)
    ensures RequestMore(s, Main).till == s.till
  {
  }

  lemma RefreshTill(s: State)
    ensures RefreshBlocked(s).till == s.till
  {
  }

  // ---------- the object ----------

  /** ApiWrap, as far as lists of dialogs go. */
  class DialogsLoader {
    var loadStates: map<Key, Load>
    var dialogsLoadTill: int
    var mayBlockByDate: bool
    var blockedByDate: bool
    var pinnedDialogsReloads: set<Key>
    var wire: Wire
    var posted: seq<Key>
    var crashed: bool
    ghost var started: multiset<Key>

    ghost function Abs(): State
      reads this
    {
      State(loadStates, dialogsLoadTill, mayBlockByDate, blockedByDate, pinnedDialogsReloads, wire, posted, started,
          crashed)
    }

    constructor ()
      ensures Abs() == INITIAL
    {
      loadStates, dialogsLoadTill, mayBlockByDate, blockedByDate := map[Main := FRESH], 0, false, false;
      pinnedDialogsReloads, wire, posted, crashed := {}, Wire(map[], map[], map[], 0), [], false;
      started := multiset{Main};
    }

    method RefreshDialogsLoadBlocked()
      modifies this`mayBlockByDate, this`blockedByDate
      ensures Abs() == RefreshBlocked(old(Abs()))
    {
      if Main in loadStates {
        var load := loadStates[Main];
        mayBlockByDate := !load.listReceived && dialogsLoadTill > 0;
        blockedByDate := !load.listReceived && load.requestId == 0 && dialogsLoadTill > 0
                         && load.offset.date > 0 && load.offset.date <= dialogsLoadTill;
      } else {
        mayBlockByDate, blockedByDate := false, false;
      }
    }

    method RequestPinnedDialogs(k: Key)
      modifies this`loadStates, this`wire
      ensures Abs() == RequestPinned(old(Abs()), k)
    {
      if k !in loadStates || loadStates[k].pinnedReceived || loadStates[k].pinnedRequestId != 0 { return; }
      var id := wire.lastId + 1;
      wire := wire.(pins := wire.pins[id := k], lastId := id);
      loadStates := loadStates[k := loadStates[k].(pinnedRequestId := id)];
    }

    method RequestMoreDialogs(k: Key)
      modifies this
      ensures Abs() == RequestMore(old(Abs()), k)
    {
      if k !in loadStates { return; }
      var load := loadStates[k];
      if load.requestId != 0 || blockedByDate { return; }
      var id := wire.lastId + 1;
      wire := wire.(lists := wire.lists[id := ListRequest(k, load.offset, load.offset.date == 0)], lastId := id);
      loadStates := loadStates[k := load.(requestId := id)];
      assert Abs() == SendList(old(Abs()), k);
      if !loadStates[k].pinnedReceived { RequestPinnedDialogs(k); }
      if k == Main { RefreshDialogsLoadBlocked(); }
    }

    method RequestDialogs(k: Key)
      modifies this
      ensures Abs() == Request(old(Abs()), k)
    {
      if k != Main && k !in loadStates {
        loadStates := loadStates[k := FRESH];
        started := started + multiset{k};
      }
      RequestMoreDialogs(k);
    }

    method RequestMoreDialogsIfNeeded(needs: Needs)
      modifies this
      ensures Abs() == MoreIfNeeded(old(Abs()), needs)
    {
      if needs.exceptions { return; }
      if Main in loadStates && !loadStates[Main].listReceived {
        if loadStates[Main].requestId != 0 { return; }
        RequestDialogs(Main);
      } else if needs.archive.Some? {
        RequestMoreDialogs(Folder(needs.archive.value));
      }
    }

    method DialogsLoadFinish(k: Key)
      modifies this`loadStates, this`posted
      ensures Abs() == Finish(old(Abs()), k)
    {
      if k !in loadStates || !loadStates[k].listReceived || !loadStates[k].pinnedReceived { return; }
      loadStates := loadStates - {k};
      posted := posted + [k];
    }

    method UpdateDialogsOffset(k: Key, dialogs: seq<Dialog>, messages: seq<Message>)
      modifies this`loadStates, this`posted
      ensures Abs() == UpdateOffset(old(Abs()), k, dialogs, messages)
    {
      var offset := FindOffset(dialogs, messages);
      if k !in loadStates { return; }
      if offset.Some? {
        loadStates := loadStates[k := loadStates[k].(offset := offset.value, requestId := 0)];
      } else {
        loadStates := loadStates[k := loadStates[k].(listReceived := true)];
        DialogsLoadFinish(k);
      }
    }

    /** The first half of the done handler of a list request: what its reply brings. */
    method TakeListReply(k: Key, reply: Reply)
      modifies this`loadStates, this`posted
      ensures Abs() == TakeReply(old(Abs()), k, reply)
    {
      hide Finish, UpdateOffset;
      match reply {
        case NotModified =>
        case Everything =>
          if k in loadStates {
            loadStates := loadStates[k := loadStates[k].(listReceived := true)];
            DialogsLoadFinish(k);
          }
        case Slice(dialogs, messages) => UpdateDialogsOffset(k, dialogs, messages);
      }
    }

    /** The done handler of a list request. */
    method OnListDone(id: nat, reply: Reply, needs: Needs)
      requires id in wire.lists
      modifies this
      ensures Abs() == Step(old(Abs()), ListReplied(id, reply, needs))
    {
      ghost var goal := Step(Abs(), ListReplied(id, reply, needs));
      var k := wire.lists[id].key;
      assert goal == ListDone(Abs().(wire := ListAnswered(wire, id)), k, reply, needs);
      hide RefreshBlocked, MoreIfNeeded, TakeReply, Step, Possible;
      wire := ListAnswered(wire, id);
      TakeListReply(k, reply);
      if k == Main && (Main !in loadStates || !loadStates[Main].listReceived) { RefreshDialogsLoadBlocked(); }
      RequestMoreDialogsIfNeeded(needs);
    }

    method ReloadPinnedDialogs(k: Key)
      modifies this`pinnedDialogsReloads, this`wire
      ensures Abs() == Reload(old(Abs()), k)
    {
      if k in pinnedDialogsReloads { return; }
      pinnedDialogsReloads := pinnedDialogsReloads + {k};
      var id := wire.lastId + 1;
      wire := wire.(reloads := wire.reloads[id := k], lastId := id);
    }

    method RequestMoreBlockedByDateDialogs(now: int, max: int)
      modifies this
      ensures Abs() == Unblock(old(Abs()), now, max)
    {
      if Main !in loadStates { return; }
      var offsetDate := loadStates[Main].offset.date;
      dialogsLoadTill := (if offsetDate != 0 then offsetDate else now) - max;
      RefreshDialogsLoadBlocked();
      RequestDialogs(Main);
    }

    /** The fail handler of a list request. */
    method OnListFail(id: nat)
      requires id in wire.lists
      modifies this
      ensures Abs() == Step(old(Abs()), ListFails(id))
    {
      var k := wire.lists[id].key;
      wire := ListAnswered(wire, id);
      if k in loadStates {
        loadStates := loadStates[k := loadStates[k].(requestId := 0)];
      } else {
        crashed := true;
      }
    }

    method OnReloadAnswer(id: nat)
      requires id in wire.reloads
      modifies this`pinnedDialogsReloads, this`wire
      ensures Abs() == Step(old(Abs()), ReloadAnswers(id))
    {
      pinnedDialogsReloads := pinnedDialogsReloads - {wire.reloads[id]};
      wire := wire.(reloads := wire.reloads - {id});
    }

    /** Done and failed answers to a pinned request end alike. */
    method OnPinnedAnswer(id: nat)
      requires id in wire.pins
      modifies this
      ensures Abs() == Step(old(Abs()), PinAnswers(id))
    {
      var k := wire.pins[id];
      wire := PinAnswered(wire, id);
      if k in loadStates {
        loadStates := loadStates[k := loadStates[k].(pinnedRequestId := 0, pinnedReceived := true)];
        DialogsLoadFinish(k);
      }
    }
  }

  /** The inner loop of updateDialogsOffset. */
  method FindTopDate(d: Dialog, messages: seq<Message>) returns (date: int)
    ensures date == TopDate(d, messages)
  {
    var j: nat := |messages|;
    assert messages[..j] == messages;
    while j > 0
      invariant j <= |messages| && TopDate(d, messages) == TopDate(d, messages[..j])
    {
      j := j - 1;
      assert messages[..j + 1][..j] == messages[..j];
      if IsTop(messages[j], d) { return messages[j].date; }
    }
    date := 0;
  }

  /** The loops of updateDialogsOffset: they go from the end and stop at the first dated dialog. */
  method FindOffset(dialogs: seq<Dialog>, messages: seq<Message>) returns (offset: Option<Offset>)
    ensures offset == NextOffset(dialogs, messages)
  {
    var lastDate, lastPeer, lastMsgId := 0, 0, 0;
    var i: nat := |dialogs|;
    ghost var m, n := AfterUsable(dialogs), AfterDated(dialogs, messages);
    while i > 0 && lastDate == 0
      invariant i <= |dialogs|
      invariant if i < m then lastPeer == dialogs[m - 1].peer && lastMsgId == dialogs[m - 1].topMessage
                else lastPeer == 0 && lastMsgId == 0
      invariant lastDate == 0 ==> n <= i
      invariant lastDate != 0 ==> n == i + 1 <= m && lastDate == TopDate(dialogs[i], messages)
    {
      i := i - 1;
      assert i < n ==> Dated(dialogs[n - 1], messages) && n - 1 == i;
      if !Usable(dialogs[i]) { continue; }
      if lastPeer == 0 { lastPeer := dialogs[i].peer; }
      if lastMsgId == 0 { lastMsgId := dialogs[i].topMessage; }
      lastDate := FindTopDate(dialogs[i], messages);
    }
    offset := if lastDate != 0 then Some(Offset(lastDate, lastMsgId, lastPeer)) else None;
  }
}
