/**
  Saving cloud drafts (apiwrap.cpp): edits are collected and saved by a timer; a save is one request, or two when
  a stale file reference has to be refreshed in between; an edit made during a save is remembered and saved again.

  Drafts are counted by version. Whether a thread's plain draft is to be skipped and whether its rich message can
  be serialized are choices of the environment. A thread owns its cloud draft.
 */
module Drafts {

  type Thread = nat

  /** DraftSaveState: requestId 0 is not sent yet. */
  datatype Save = Save(requestId: nat, changedWhileSaving: bool)

  /** A request on the wire or, after a file reference error, one waiting for the refreshed reference. */
  datatype Request = Request(thread: Thread, version: nat, save: nat, refreshed: bool)

  /** The requests, and how many each save has sent. */
  datatype Wire = Wire(
    sent: map<nat, Request>, refreshing: map<nat, Request>, lastId: nat, saveCount: nat, requestsOf: map<nat, nat>)

  datatype State = State(
    dead: set<Thread>, saves: map<Thread, Save>, timer: bool, saveRequestId: map<Thread, nat>, wire: Wire,
    edited: map<Thread, nat>, lastSent: map<Thread, nat>, excused: set<Thread>)

  const INITIAL := State({}, map[], false, map[], Wire(map[], map[], 0, 0, map[]), map[], map[], {})

  function Get<K>(m: map<K, nat>, k: K): nat { if k in m then m[k] else 0 }

  // ---------- what each function does ----------

  /** saveDraftToCloudDelayed */
  function Delayed(s: State, t: Thread, skip: bool): State {
    if skip then s.(excused := s.excused + {t})
    else
      var entry := if t !in s.saves then Save(0, false)
                   else if s.saves[t].requestId != 0 then s.saves[t].(changedWhileSaving := true)
                   else s.saves[t];
      s.(saves := s.saves[t := entry], timer := true, excused := s.excused - {t})
  }

  function Edit(s: State, t: Thread, skip: bool): State {
    Delayed(s.(edited := s.edited[t := Get(s.edited, t) + 1]), t, skip)
  }

  function Erase(s: State, t: Thread): State { s.(saves := s.saves - {t}) }

  function GiveUp(s: State, t: Thread): State { Erase(s, t).(excused := s.excused + {t}) }

  /** A save's first request, after the request of the cloud draft was cancelled. */
  function SendFirst(w: Wire, cancelled: nat, t: Thread, version: nat): Wire {
    Wire((w.sent - {cancelled})[w.lastId + 1 := Request(t, version, w.saveCount + 1, false)],
         w.refreshing, w.lastId + 1, w.saveCount + 1, w.requestsOf[w.saveCount + 1 := 1])
  }

  /** The same save sent again with a fresh file reference. */
  function SendAgain(w: Wire, r: Request): Wire {
    Wire(w.sent[w.lastId + 1 := r.(refreshed := true)],
         w.refreshing, w.lastId + 1, w.saveCount, w.requestsOf[r.save := Get(w.requestsOf, r.save) + 1])
  }

  function TakeSent(w: Wire, id: nat): Wire { w.(sent := w.sent - {id}) }

  function TakeRefreshing(w: Wire, id: nat): Wire { w.(refreshing := w.refreshing - {id}) }

  function Suspend(w: Wire, id: nat): Wire
    requires id in w.sent
  {
    TakeSent(w, id).(refreshing := w.refreshing[id := w.sent[id]])
  }

  /** The part of savePreparedDraftToCloud that sends, and the tagging of the entry. */
  function SendSave(s: State, t: Thread): State {
    var id := s.wire.lastId + 1;
    s.(wire := SendFirst(s.wire, Get(s.saveRequestId, t), t, Get(s.edited, t)),
       saveRequestId := s.saveRequestId[t := id],
       saves := s.saves[t := Save(id, false)],
       lastSent := s.lastSent[t := Get(s.edited, t)])
  }

  /** One pass of the loop in saveDraftsToCloud. */
  function SaveOne(s: State, t: Thread, skip: set<Thread>, unserializable: set<Thread>): State {
    if t !in s.saves then s
    else if t in s.dead then Erase(s, t)
    else if s.saves[t].requestId != 0 then s
    else if t in skip || t in unserializable then GiveUp(s, t)
    else SendSave(s, t)
  }

  /** The whole loop, over the entries in some order. */
  function SaveAll(s: State, order: seq<Thread>, skip: set<Thread>, unserializable: set<Thread>): State
    decreases |order|
  {
    if |order| == 0 then s
    else SaveOne(SaveAll(s, order[..|order| - 1], skip, unserializable), order[|order| - 1], skip, unserializable)
  }

  /** What the done handler and failCleanup share. */
  function Finish(s: State, t: Thread, id: nat, skip: bool): State {
    var u := if Get(s.saveRequestId, t) == id then s.(saveRequestId := s.saveRequestId[t := 0]) else s;
    if t in u.saves && u.saves[t].requestId == id then
      var erased := Erase(u, t);
      if u.saves[t].changedWhileSaving && t !in u.dead then Delayed(erased, t, skip) else erased
    else u
  }

  /** The repeated request, and trackRequestId. */
  function Repeat(s: State, r: Request): State {
    var id := s.wire.lastId + 1;
    s.(wire := SendAgain(s.wire, r),
       saveRequestId := s.saveRequestId[r.thread := id],
       saves := if r.thread in s.saves then s.saves[r.thread := s.saves[r.thread].(requestId := id)] else s.saves,
       lastSent := s.lastSent[r.thread := r.version])
  }

  datatype Event =
    | EditThread(thread: Thread, skip: bool)
    | Tick(order: seq<Thread>, skips: set<Thread>, unserializable: set<Thread>)
    | CheckQuit(order: seq<Thread>, skips: set<Thread>, unserializable: set<Thread>)
    | Done(id: nat, skip: bool)
    | Failed(id: nat, fileReference: bool, skip: bool)
    | Refreshed(id: nat, serializes: bool, skip: bool)
    | Dies(thread: Thread)

  /** The order is an enumeration of the entries. */
  ghost predicate Enumerates(order: seq<Thread>, threads: set<Thread>) {
    && (forall i :: 0 <= i < |order| ==> order[i] in threads)
    && (forall t :: t in threads ==> t in order)
  }

  ghost predicate Possible(s: State, e: Event) {
    match e
    case EditThread(t, _) => t !in s.dead
    case Tick(order, _, _) => s.timer && Enumerates(order, s.saves.Keys)
    case CheckQuit(order, _, _) => Enumerates(order, s.saves.Keys)
    case Done(id, _) => id in s.wire.sent
    case Failed(id, _, _) => id in s.wire.sent
    case Refreshed(id, _, _) => id in s.wire.refreshing
    case Dies(_) => true
  }

  ghost function Step(s: State, e: Event): State
    requires Possible(s, e)
  {
    match e
    case EditThread(t, skip) => Edit(s, t, skip)
    case Tick(order, skips, unserializable) => SaveAll(s.(timer := false), order, skips, unserializable)
    case CheckQuit(order, skips, unserializable) => SaveAll(s, order, skips, unserializable)
    case Done(id, skip) => Finish(s.(wire := TakeSent(s.wire, id)), s.wire.sent[id].thread, id, skip)
    case Failed(id, fileReference, skip) =>
      var r := s.wire.sent[id];
      if !r.refreshed && fileReference then s.(wire := Suspend(s.wire, id))
      else Finish(s.(wire := TakeSent(s.wire, id)), r.thread, id, skip)
    case Refreshed(id, serializes, skip) =>
      var r := s.wire.refreshing[id];
      var u := s.(wire := TakeRefreshing(s.wire, id));
      if serializes then Repeat(u, r) else Finish(u, r.thread, id, skip)
    case Dies(t) => s.(dead := s.dead + {t})
  }

  // ---------- what every run keeps ----------

  /** Request id is outstanding for thread t: sent, or waiting for a refreshed reference. */
  ghost predicate Outstanding(s: State, id: nat, t: Thread) {
    (id in s.wire.sent && s.wire.sent[id].thread == t) || (id in s.wire.refreshing && s.wire.refreshing[id].thread == t)
  }

  /** The entries of living threads: unsent ones have the timer (or are still to be visited), sent ones a request. */
  ghost predicate EntriesWork(s: State, todo: set<Thread>) {
    forall t | t in s.saves && t !in s.dead ::
      if s.saves[t].requestId == 0 then s.timer || t in todo else Outstanding(s, s.saves[t].requestId, t)
  }

  ghost predicate RequestTracked(s: State, id: nat, r: Request) {
    && 0 < id <= s.wire.lastId
    && (r.thread !in s.dead ==>
          r.thread in s.saves && s.saves[r.thread].requestId == id && r.version == Get(s.lastSent, r.thread))
  }

  /** Every outstanding request of a living thread is the one its entry names, and carries its last sent draft. */
  ghost predicate RequestsTracked(s: State) {
    && (forall id | id in s.wire.sent :: RequestTracked(s, id, s.wire.sent[id]))
    && (forall id | id in s.wire.refreshing :: RequestTracked(s, id, s.wire.refreshing[id]))
  }

  /** A living thread edited after its last sent draft is tracked. */
  ghost predicate EditsTracked(s: State) {
    forall t | t !in s.dead && t !in s.excused && Get(s.lastSent, t) < Get(s.edited, t) ::
      t in s.saves && (s.saves[t].requestId == 0 || s.saves[t].changedWhileSaving)
  }

  /** No save sends more than two requests: the outstanding request of a save is its first or its second one. */
  ghost predicate Counted(outstanding: map<nat, Request>, saveCount: nat, requestsOf: map<nat, nat>) {
    && (forall id | id in outstanding ::
          var r := outstanding[id];
          0 < r.save <= saveCount && Get(requestsOf, r.save) == if r.refreshed then 2 else 1)
    && (forall a, b | a in outstanding && b in outstanding && a != b :: outstanding[a].save != outstanding[b].save)
    && (forall n | n in requestsOf :: n <= saveCount && requestsOf[n] <= 2)
  }

  /** A thread's cloud draft names only that thread's requests. */
  ghost predicate CloudIdsOwn(s: State) {
    forall t | t in s.saveRequestId ::
      s.saveRequestId[t] <= s.wire.lastId
          && (s.saveRequestId[t] in s.wire.sent ==> s.wire.sent[s.saveRequestId[t]].thread == t)
  }

  ghost predicate Tracking(s: State, todo: set<Thread>) {
    CloudIdsOwn(s) && EntriesWork(s, todo) && RequestsTracked(s) && EditsTracked(s)
  }

  ghost predicate Counting(w: Wire) {
    && w.sent.Keys !! w.refreshing.Keys
    && (forall id | id in w.sent :: id <= w.lastId)
    && (forall id | id in w.refreshing :: id <= w.lastId && !w.refreshing[id].refreshed)
    && Counted(w.sent + w.refreshing, w.saveCount, w.requestsOf)
  }

  lemma EditTracks(s: State, t: Thread, skip: bool)
    requires Tracking(s, {}) && t !in s.dead
    ensures Tracking(Edit(s, t, skip), {})
  {
    var u := Edit(s, t, skip);
    assert EntriesWork(u, {}) by { hide RequestsTracked, EditsTracked, CloudIdsOwn; }
    assert RequestsTracked(u) by { hide EntriesWork, EditsTracked, CloudIdsOwn; }
    assert EditsTracked(u) by { hide EntriesWork, RequestsTracked, CloudIdsOwn; }
  }

  /** A living thread that has nothing sent is not cancelled by its own save. */
  lemma NothingToCancel(s: State, t: Thread)
    requires CloudIdsOwn(s) && RequestsTracked(s) && t in s.saves && t !in s.dead && s.saves[t].requestId == 0
    ensures Get(s.saveRequestId, t) !in s.wire.sent
  {
  }

  lemma NoNewerIds(s: State)
    requires RequestsTracked(s)
    ensures forall i :: i in s.wire.sent ==> i <= s.wire.lastId
  {
  }

  ghost predicate Unsent(s: State, t: Thread) {
    t in s.saves && t !in s.dead && s.saves[t].requestId == 0 && Get(s.saveRequestId, t) !in s.wire.sent
  }

  lemma SendSaveEntries(s: State, t: Thread, todo: set<Thread>)
    requires EntriesWork(s, todo) && RequestsTracked(s) && Unsent(s, t)
    ensures EntriesWork(SendSave(s, t), todo - {t})
  {
    var u := SendSave(s, t);
    NoNewerIds(s);
    hide RequestsTracked;
    forall x | x in u.saves && x !in u.dead
      ensures if u.saves[x].requestId == 0 then u.timer || x in todo - {t} else Outstanding(u, u.saves[x].requestId, x)
    {
      if x != t && u.saves[x].requestId != 0 {
        assert Outstanding(s, s.saves[x].requestId, x);
      }
    }
  }

  lemma SendSaveRequests(s: State, t: Thread)
    requires RequestsTracked(s) && CloudIdsOwn(s) && Unsent(s, t)
    ensures RequestsTracked(SendSave(s, t)) && CloudIdsOwn(SendSave(s, t))
  {
    assert CloudIdsOwn(SendSave(s, t)) by { hide RequestsTracked; }
    hide CloudIdsOwn;
  }

  lemma SendSaveTracks(s: State, t: Thread, todo: set<Thread>)
    requires Tracking(s, todo) && t in s.saves && t !in s.dead && s.saves[t].requestId == 0
    ensures Tracking(SendSave(s, t), todo - {t})
  {
    NothingToCancel(s, t);
    SendSaveRequests(s, t);
    SendSaveEntries(s, t, todo);
    assert EditsTracked(SendSave(s, t)) by { hide EntriesWork, RequestsTracked, CloudIdsOwn; }
  }

  lemma EraseTracks(s: State, t: Thread, todo: set<Thread>)
    requires Tracking(s, todo) && (t in s.dead || (t in s.saves && s.saves[t].requestId == 0))
    ensures Tracking(if t in s.dead then Erase(s, t) else GiveUp(s, t), todo - {t})
  {
    var u := if t in s.dead then Erase(s, t) else GiveUp(s, t);
    assert EntriesWork(u, todo - {t}) by { hide RequestsTracked, EditsTracked, CloudIdsOwn; }
    assert RequestsTracked(u) by { hide EntriesWork, EditsTracked, CloudIdsOwn; }
    assert EditsTracked(u) by { hide EntriesWork, RequestsTracked, CloudIdsOwn; }
  }

  lemma SaveOneTracks(s: State, t: Thread, skip: set<Thread>, unserializable: set<Thread>, todo: set<Thread>)
    requires Tracking(s, todo)
    ensures Tracking(SaveOne(s, t, skip, unserializable), todo - {t})
  {
    hide RequestsTracked, EditsTracked, CloudIdsOwn, SendSave, Erase, GiveUp;
    if t !in s.saves || (t !in s.dead && s.saves[t].requestId != 0) {
      assert EntriesWork(s, todo - {t});
    } else if t in s.dead || t in skip || t in unserializable {
      EraseTracks(s, t, todo);
    } else {
      SendSaveTracks(s, t, todo);
    }
  }

  lemma {:induction false} SaveAllTracks(
    s: State, order: seq<Thread>, skip: set<Thread>, unserializable: set<Thread>, todo: set<Thread>)
    requires Tracking(s, todo)
    ensures Tracking(SaveAll(s, order, skip, unserializable), todo - (set t | t in order))
    decreases |order|
  {
    hide Tracking, SaveOne;
    if |order| == 0 {
      assert todo - (set t | t in order) == todo;
    } else {
      var init, t := order[..|order| - 1], order[|order| - 1];
      SaveAllTracks(s, init, skip, unserializable, todo);
      SaveOneTracks(SaveAll(s, init, skip, unserializable), t, skip, unserializable, todo - (set x | x in init));
      assert order == init + [t];
      assert todo - (set x | x in init) - {t} == todo - (set x | x in order);
    }
  }

  /** The state between the arrival of a reply to request id and the handling of it. */
  ghost predicate Answering(s: State, t: Thread, id: nat) {
    && CloudIdsOwn(s)
    && (forall x | x in s.saves && x !in s.dead && x != t ::
          if s.saves[x].requestId == 0 then s.timer else Outstanding(s, s.saves[x].requestId, x))
    && RequestsTracked(s)
    && EditsTracked(s)
    && (t !in s.dead ==> t in s.saves && s.saves[t].requestId == id && id != 0)
    && id !in s.wire.sent && id !in s.wire.refreshing
  }

  lemma SentAnswers(s: State, id: nat)
    requires Tracking(s, {}) && id in s.wire.sent && id !in s.wire.refreshing
    ensures Answering(s.(wire := TakeSent(s.wire, id)), s.wire.sent[id].thread, id)
  {
    var u, t := s.(wire := TakeSent(s.wire, id)), s.wire.sent[id].thread;
    forall x | x in u.saves && x !in u.dead && x != t
      ensures if u.saves[x].requestId == 0 then u.timer else Outstanding(u, u.saves[x].requestId, x)
    {
      hide EditsTracked, RequestsTracked, CloudIdsOwn;
    }
  }

  lemma RefreshedAnswers(s: State, id: nat)
    requires Tracking(s, {}) && id in s.wire.refreshing && id !in s.wire.sent
    ensures Answering(s.(wire := TakeRefreshing(s.wire, id)), s.wire.refreshing[id].thread, id)
  {
    var u, t := s.(wire := TakeRefreshing(s.wire, id)), s.wire.refreshing[id].thread;
    forall x | x in u.saves && x !in u.dead && x != t
      ensures if u.saves[x].requestId == 0 then u.timer else Outstanding(u, u.saves[x].requestId, x)
    {
      hide EditsTracked, RequestsTracked, CloudIdsOwn;
    }
  }

  lemma ForgetAnswered(s: State, t: Thread, id: nat)
    requires Answering(s, t, id)
    ensures Answering(s.(saveRequestId := s.saveRequestId[t := 0]), t, id)
  {
    var u := s.(saveRequestId := s.saveRequestId[t := 0]);
    assert RequestsTracked(u) by { hide EditsTracked, CloudIdsOwn; }
    assert CloudIdsOwn(u) by { hide EditsTracked; }
    assert EditsTracked(u) by { hide RequestsTracked, CloudIdsOwn; }
    assert forall x, i :: Outstanding(u, i, x) == Outstanding(s, i, x);
  }

  lemma EraseAnswered(s: State, t: Thread, id: nat)
    requires Answering(s, t, id) && (t !in s.dead ==> !s.saves[t].changedWhileSaving)
    ensures Tracking(Erase(s, t), {})
  {
    var u := Erase(s, t);
    assert EntriesWork(u, {}) by { hide RequestsTracked, EditsTracked, CloudIdsOwn; }
    assert RequestsTracked(u) by { hide EntriesWork, EditsTracked, CloudIdsOwn; }
    assert EditsTracked(u) by { hide EntriesWork, RequestsTracked, CloudIdsOwn; }
  }

  lemma QueueAgain(s: State, t: Thread, id: nat, skip: bool)
    requires Answering(s, t, id) && t !in s.dead
    ensures Tracking(Delayed(Erase(s, t), t, skip), {})
  {
    var u := Delayed(Erase(s, t), t, skip);
    assert EntriesWork(u, {}) by { hide RequestsTracked, EditsTracked, CloudIdsOwn; }
    assert RequestsTracked(u) by { hide EntriesWork, EditsTracked, CloudIdsOwn; }
    assert EditsTracked(u) by { hide EntriesWork, RequestsTracked, CloudIdsOwn; }
  }

  lemma NothingAnswered(s: State, t: Thread, id: nat)
    requires Answering(s, t, id) && t in s.dead
    ensures Tracking(s, {})
  {
    assert EntriesWork(s, {}) by { hide RequestsTracked, EditsTracked, CloudIdsOwn; }
  }

  lemma FinishTracks(s: State, t: Thread, id: nat, skip: bool)
    requires Answering(s, t, id)
    ensures Tracking(Finish(s, t, id, skip), {})
  {
    var u := if Get(s.saveRequestId, t) == id then s.(saveRequestId := s.saveRequestId[t := 0]) else s;
    ForgetAnswered(s, t, id);
    assert Answering(u, t, id);
    if t in u.saves && u.saves[t].requestId == id {
      if u.saves[t].changedWhileSaving && t !in u.dead {
        QueueAgain(u, t, id, skip);
      } else {
        EraseAnswered(u, t, id);
      }
    } else {
      NothingAnswered(u, t, id);
    }
    hide Answering, Tracking, Erase, Delayed;
  }

  lemma RepeatEntries(s: State, id: nat, r: Request)
    requires Answering(s, r.thread, id)
    ensures EntriesWork(Repeat(s, r), {})
  {
    hide RequestTracked, EditsTracked, CloudIdsOwn;
    var u := Repeat(s, r);
    assert forall i :: i in s.wire.sent ==> i <= s.wire.lastId by { NoNewerIds(s); }
    forall x | x in u.saves && x !in u.dead
      ensures if u.saves[x].requestId == 0 then u.timer else Outstanding(u, u.saves[x].requestId, x)
    {
      if x != r.thread && u.saves[x].requestId != 0 {
        assert Outstanding(s, s.saves[x].requestId, x);
      }
    }
  }

  lemma RepeatRequests(s: State, id: nat, r: Request)
    requires Answering(s, r.thread, id) && (r.thread !in s.dead ==> r.version == Get(s.lastSent, r.thread))
    ensures RequestsTracked(Repeat(s, r)) && CloudIdsOwn(Repeat(s, r))
  {
    hide EditsTracked, Outstanding;
  }

  lemma RepeatTracks(s: State, id: nat, r: Request)
    requires Answering(s, r.thread, id) && (r.thread !in s.dead ==> r.version == Get(s.lastSent, r.thread))
    ensures Tracking(Repeat(s, r), {})
  {
    var u := Repeat(s, r);
    RepeatEntries(s, id, r);
    RepeatRequests(s, id, r);
    assert EditsTracked(u) by { hide EntriesWork, RequestsTracked, CloudIdsOwn; }
  }

  lemma SuspendTracks(s: State, id: nat)
    requires Tracking(s, {}) && id in s.wire.sent && id !in s.wire.refreshing
    ensures Tracking(s.(wire := Suspend(s.wire, id)), {})
  {
    var u := s.(wire := Suspend(s.wire, id));
    assert EntriesWork(u, {}) by { hide RequestsTracked, EditsTracked, CloudIdsOwn; }
    assert RequestsTracked(u) by { hide EntriesWork, EditsTracked, CloudIdsOwn; }
  }

  lemma DiesTracks(s: State, t: Thread)
    requires Tracking(s, {})
    ensures Tracking(s.(dead := s.dead + {t}), {})
  {
    var u := s.(dead := s.dead + {t});
    assert EntriesWork(u, {}) by { hide RequestsTracked, EditsTracked, CloudIdsOwn; }
    assert RequestsTracked(u) by { hide EntriesWork, EditsTracked, CloudIdsOwn; }
  }

  // ---------- at most two requests a save ----------

  lemma FewerCounts(o: map<nat, Request>, p: map<nat, Request>, saveCount: nat, requestsOf: map<nat, nat>)
    requires Counted(o, saveCount, requestsOf) && p.Keys <= o.Keys && forall id :: id in p ==> p[id] == o[id]
    ensures Counted(p, saveCount, requestsOf)
  {
  }

  lemma OneMoreSave(o: map<nat, Request>, saveCount: nat, requestsOf: map<nat, nat>, id: nat, r: Request)
    requires Counted(o, saveCount, requestsOf) && id !in o && r.save == saveCount + 1 && !r.refreshed
    ensures Counted(o[id := r], saveCount + 1, requestsOf[r.save := 1])
  {
  }

  lemma OneMoreRequest(o: map<nat, Request>, saveCount: nat, requestsOf: map<nat, nat>, first: nat, id: nat)
    requires Counted(o, saveCount, requestsOf) && first in o && !o[first].refreshed && id !in o
    ensures Counted((o - {first})[id := o[first].(refreshed := true)], saveCount, requestsOf[o[first].save := 2])
  {
  }

  lemma SendFirstCounts(w: Wire, cancelled: nat, t: Thread, version: nat)
    requires Counting(w)
    ensures Counting(SendFirst(w, cancelled, t, version))
  {
    hide Counted;
    var kept, id, r := w.sent - {cancelled}, w.lastId + 1, Request(t, version, w.saveCount + 1, false);
    FewerCounts(w.sent + w.refreshing, kept + w.refreshing, w.saveCount, w.requestsOf);
    OneMoreSave(kept + w.refreshing, w.saveCount, w.requestsOf, id, r);
    assert kept[id := r] + w.refreshing == (kept + w.refreshing)[id := r];
  }

  lemma MoveRequest(sent: map<nat, Request>, refreshing: map<nat, Request>, id: nat, next: nat, r: Request)
    requires id !in sent && next !in refreshing
    ensures sent[next := r] + (refreshing - {id}) == ((sent + refreshing) - {id})[next := r]
  {
  }

  lemma FirstOfSave(o: map<nat, Request>, saveCount: nat, requestsOf: map<nat, nat>, id: nat)
    requires Counted(o, saveCount, requestsOf) && id in o && !o[id].refreshed
    ensures Get(requestsOf, o[id].save) == 1
  {
  }

  lemma SendAgainCounts(w: Wire, id: nat)
    requires Counting(w) && id in w.refreshing
    ensures Counting(SendAgain(TakeRefreshing(w, id), w.refreshing[id]))
  {
    hide Counted;
    var o, r, next := w.sent + w.refreshing, w.refreshing[id], w.lastId + 1;
    assert o[id] == r;
    FirstOfSave(o, w.saveCount, w.requestsOf, id);
    OneMoreRequest(o, w.saveCount, w.requestsOf, id, next);
    MoveRequest(w.sent, w.refreshing, id, next, r.(refreshed := true));
  }

  lemma TakeCounts(w: Wire, id: nat)
    requires Counting(w)
    ensures Counting(TakeSent(w, id)) && Counting(TakeRefreshing(w, id))
  {
    hide Counted;
    FewerCounts(w.sent + w.refreshing, (w.sent - {id}) + w.refreshing, w.saveCount, w.requestsOf);
    FewerCounts(w.sent + w.refreshing, w.sent + (w.refreshing - {id}), w.saveCount, w.requestsOf);
  }

  lemma SuspendCounts(w: Wire, id: nat)
    requires Counting(w) && id in w.sent && !w.sent[id].refreshed
    ensures Counting(Suspend(w, id))
  {
    hide Counted;
    assert (w.sent - {id}) + w.refreshing[id := w.sent[id]] == w.sent + w.refreshing;
  }

  lemma {:induction false} SaveAllCounts(s: State, order: seq<Thread>, skip: set<Thread>, unserializable: set<Thread>)
    requires Counting(s.wire)
    ensures Counting(SaveAll(s, order, skip, unserializable).wire)
    decreases |order|
  {
    hide Counting, SendFirst;
    if |order| > 0 {
      var init, t := order[..|order| - 1], order[|order| - 1];
      SaveAllCounts(s, init, skip, unserializable);
      var u := SaveAll(s, init, skip, unserializable);
      SendFirstCounts(u.wire, Get(u.saveRequestId, t), t, Get(u.edited, t));
    }
  }

  lemma FinishSends(s: State, t: Thread, id: nat, skip: bool)
    ensures Finish(s, t, id, skip).wire == s.wire
  {
  }

  // ---------- runs ----------

  ghost predicate Inv(s: State) { Tracking(s, {}) && Counting(s.wire) }

  /** What is known of the request that a reply answers. */
  lemma AnsweredRequest(s: State, id: nat)
    requires Inv(s) && (id in s.wire.sent || id in s.wire.refreshing)
    ensures !(id in s.wire.sent && id in s.wire.refreshing)
    ensures var r := if id in s.wire.sent then s.wire.sent[id] else s.wire.refreshing[id];
            r.thread !in s.dead ==> r.version == Get(s.lastSent, r.thread)
  {
  }

  lemma SentReplyKeeps(s: State, id: nat, skip: bool)
    requires Inv(s) && id in s.wire.sent
    ensures Inv(Finish(s.(wire := TakeSent(s.wire, id)), s.wire.sent[id].thread, id, skip))
  {
    AnsweredRequest(s, id);
    hide Tracking, Counting, Finish, Answering;
    var u, t := s.(wire := TakeSent(s.wire, id)), s.wire.sent[id].thread;
    SentAnswers(s, id);
    TakeCounts(s.wire, id);
    FinishTracks(u, t, id, skip);
    FinishSends(u, t, id, skip);
  }

  lemma RefreshedReplyKeeps(s: State, id: nat, serializes: bool, skip: bool)
    requires Inv(s) && id in s.wire.refreshing
    ensures Inv(Step(s, Refreshed(id, serializes, skip)))
  {
    AnsweredRequest(s, id);
    hide Tracking, Counting, Finish, Answering, SendAgain;
    var u, r := s.(wire := TakeRefreshing(s.wire, id)), s.wire.refreshing[id];
    RefreshedAnswers(s, id);
    if serializes {
      RepeatTracks(u, id, r);
      SendAgainCounts(s.wire, id);
    } else {
      TakeCounts(s.wire, id);
      FinishTracks(u, r.thread, id, skip);
      FinishSends(u, r.thread, id, skip);
    }
  }

  lemma FailedKeeps(s: State, id: nat, fileReference: bool, skip: bool)
    requires Inv(s) && id in s.wire.sent
    ensures Inv(Step(s, Failed(id, fileReference, skip)))
  {
    AnsweredRequest(s, id);
    hide Tracking, Counting, Finish, Suspend;
    if !s.wire.sent[id].refreshed && fileReference {
      SuspendTracks(s, id);
      SuspendCounts(s.wire, id);
    } else {
      SentReplyKeeps(s, id, skip);
    }
  }

  lemma TimerStopped(s: State, timer: bool)
    requires Tracking(s, {})
    ensures Tracking(s.(timer := timer), s.saves.Keys)
  {
    var u := s.(timer := timer);
    assert EntriesWork(u, s.saves.Keys) by { hide RequestsTracked, EditsTracked, CloudIdsOwn; }
    assert RequestsTracked(u) by { hide EntriesWork, EditsTracked, CloudIdsOwn; }
    assert EditsTracked(u) by { hide EntriesWork, RequestsTracked, CloudIdsOwn; }
  }

  lemma SavesKeep(s: State, timer: bool, order: seq<Thread>, skips: set<Thread>, unserializable: set<Thread>)
    requires Inv(s) && Enumerates(order, s.saves.Keys)
    ensures Inv(SaveAll(s.(timer := timer), order, skips, unserializable))
  {
    hide Tracking, Counting;
    var u := s.(timer := timer);
    TimerStopped(s, timer);
    SaveAllTracks(u, order, skips, unserializable, s.saves.Keys);
    SaveAllCounts(u, order, skips, unserializable);
    assert s.saves.Keys - (set t | t in order) == {};
  }

  lemma StepKeeps(s: State, e: Event)
    requires Inv(s) && Possible(s, e)
    ensures Inv(Step(s, e))
  {
    hide Tracking, Counting, Finish, SaveAll, Repeat, TakeSent, TakeRefreshing, Suspend;
    match e
    case EditThread(t, skip) => EditTracks(s, t, skip);
    case Tick(order, skips, unserializable) => SavesKeep(s, false, order, skips, unserializable);
    case CheckQuit(order, skips, unserializable) =>
      assert s.(timer := s.timer) == s;
      SavesKeep(s, s.timer, order, skips, unserializable);
    case Done(id, skip) => SentReplyKeeps(s, id, skip);
    case Failed(id, fileReference, skip) => FailedKeeps(s, id, fileReference, skip);
    case Refreshed(id, serializes, skip) => RefreshedReplyKeeps(s, id, serializes, skip);
    case Dies(t) => DiesTracks(s, t);
  }

  ghost predicate IsRun(states: seq<State>, events: seq<Event>) {
    && |states| == |events| + 1
    && states[0] == INITIAL
    && forall i :: 0 <= i < |events| ==> Possible(states[i], events[i]) && states[i + 1] == Step(states[i], events[i])
  }

  lemma {:induction false} RunKeeps(states: seq<State>, events: seq<Event>, n: nat)
    requires IsRun(states, events) && n < |states|
    ensures Inv(states[n])
  {
    if n == 0 {
      hide Step;
    } else {
      hide Step, Inv, Possible;
      RunKeeps(states, events, n - 1);
      StepKeeps(states[n - 1], events[n - 1]);
    }
  }

  /** The thread has unsent edits and nothing excuses losing them. */
  ghost predicate Dirty(s: State, t: Thread) {
    t !in s.dead && t !in s.excused && Get(s.lastSent, t) < Get(s.edited, t)
  }

  /**
    In every run, at every step boundary: a thread edited after its last sent draft is tracked, its entry unsent with
    the timer armed, or in flight and marked as changed; an outstanding request of a living thread is the one its
    entry names; and no save sends more than two requests.
   */
  lemma EditsAreNotLost(states: seq<State>, events: seq<Event>, n: nat)
    requires IsRun(states, events) && n < |states|
    ensures var s := states[n];
            && (forall t | Dirty(s, t) ::
                  t in s.saves
                  && if s.saves[t].requestId == 0 then s.timer
                     else s.saves[t].changedWhileSaving && Outstanding(s, s.saves[t].requestId, t))
            && (forall id, t | Outstanding(s, id, t) && t !in s.dead :: t in s.saves && s.saves[t].requestId == id)
            && (forall save | save in s.wire.requestsOf :: s.wire.requestsOf[save] <= 2)
  {
    RunKeeps(states, events, n);
  }

  /** Once nothing is outstanding and the timer is idle, every living thread has sent its last edit or is excused. */
  lemma QuietMeansSent(states: seq<State>, events: seq<Event>, n: nat, t: Thread)
    requires IsRun(states, events) && n < |states|
    requires var s := states[n]; s.wire.sent == map[] && s.wire.refreshing == map[] && !s.timer
    ensures !Dirty(states[n], t)
  {
    EditsAreNotLost(states, events, n);
  }

  // ---------- what the events do ----------

  function EditsOf(events: seq<Event>, t: Thread): nat {
    if |events| == 0 then 0
    else
      var last := events[|events| - 1];
      EditsOf(events[..|events| - 1], t) + if last.EditThread? && last.thread == t then 1 else 0
  }

  lemma {:induction false} SaveAllWorld(s: State, order: seq<Thread>, skip: set<Thread>, unserializable: set<Thread>)
    ensures var u := SaveAll(s, order, skip, unserializable);
            && u.dead == s.dead && u.timer == s.timer && u.edited == s.edited
            && u.wire.refreshing == s.wire.refreshing && u.wire.lastId >= s.wire.lastId
    decreases |order|
  {
    hide Get;
    if |order| > 0 { SaveAllWorld(s, order[..|order| - 1], skip, unserializable); }
  }

  lemma FinishEdits(s: State, t: Thread, id: nat, skip: bool)
    ensures Finish(s, t, id, skip).edited == s.edited
  {
  }

  lemma StepEdits(s: State, e: Event, t: Thread)
    requires Possible(s, e)
    ensures Get(Step(s, e).edited, t) == Get(s.edited, t) + if e.EditThread? && e.thread == t then 1 else 0
  {
    hide SaveAll, SendAgain, Suspend, TakeSent, TakeRefreshing, Finish;
    match e
    case Done(id, skip) => FinishEdits(s.(wire := TakeSent(s.wire, id)), s.wire.sent[id].thread, id, skip);
    case Failed(id, _, skip) => FinishEdits(s.(wire := TakeSent(s.wire, id)), s.wire.sent[id].thread, id, skip);
    case Refreshed(id, _, skip) =>
      FinishEdits(s.(wire := TakeRefreshing(s.wire, id)), s.wire.refreshing[id].thread, id, skip);
    case Tick(order, skips, unserializable) => SaveAllWorld(s.(timer := false), order, skips, unserializable);
    case CheckQuit(order, skips, unserializable) => SaveAllWorld(s, order, skips, unserializable);
    case _ =>
  }

  /** The version of a draft is the number of its edits. */
  lemma {:induction false} VersionsCountEdits(states: seq<State>, events: seq<Event>, n: nat, t: Thread)
    requires IsRun(states, events) && n < |states|
    ensures Get(states[n].edited, t) == EditsOf(events[..n], t)
  {
    if n > 0 {
      VersionsCountEdits(states, events, n - 1, t);
      hide Step, Possible, Get;
      StepEdits(states[n - 1], events[n - 1], t);
      assert events[..n][..n - 1] == events[..n - 1];
    }
  }

  /** The event says that the draft of the thread is to be skipped, or that it does not serialize. */
  predicate Skips(s: State, e: Event, t: Thread) {
    match e
    case EditThread(x, skip) => x == t && skip
    case Tick(_, skips, unserializable) => t in skips + unserializable
    case CheckQuit(_, skips, unserializable) => t in skips + unserializable
    case Done(id, skip) => skip && id in s.wire.sent && s.wire.sent[id].thread == t
    case Failed(id, _, skip) => skip && id in s.wire.sent && s.wire.sent[id].thread == t
    case Refreshed(id, serializes, skip) =>
      skip && !serializes && id in s.wire.refreshing && s.wire.refreshing[id].thread == t
    case Dies(_) => false
  }

  /** What visiting the entries in some order does to those of one thread. */
  ghost predicate Visited(s: State, u: State, t: Thread, visited: bool, skipped: bool) {
    && (t in u.excused ==> t in s.excused || (visited && skipped))
    && if t !in s.saves || !visited then
         (t in u.saves <==> t in s.saves) && (t in s.saves ==> u.saves[t] == s.saves[t])
       else if t in s.dead then t !in u.saves
       else if s.saves[t].requestId != 0 then t in u.saves && u.saves[t] == s.saves[t]
       else if skipped then t !in u.saves && t in u.excused
       else
         && t in u.saves && u.saves[t].requestId > s.wire.lastId && !u.saves[t].changedWhileSaving
         && Get(u.lastSent, t) == Get(s.edited, t)
  }

  lemma SaveOneVisits(s: State, x: Thread, skip: set<Thread>, unserializable: set<Thread>, t: Thread)
    ensures Visited(s, SaveOne(s, x, skip, unserializable), t, x == t, t in skip || t in unserializable)
    ensures x != t ==> Get(SaveOne(s, x, skip, unserializable).lastSent, t) == Get(s.lastSent, t)
  {
    hide SendFirst;
  }

  lemma {:induction false} SaveAllVisits(
    s: State, order: seq<Thread>, skip: set<Thread>, unserializable: set<Thread>, t: Thread)
    ensures Visited(s, SaveAll(s, order, skip, unserializable), t, t in order, t in skip || t in unserializable)
    decreases |order|
  {
    if |order| > 0 {
      var init, x := order[..|order| - 1], order[|order| - 1];
      var v := SaveAll(s, init, skip, unserializable);
      SaveAllVisits(s, init, skip, unserializable, t);
      SaveAllWorld(s, init, skip, unserializable);
      SaveOneVisits(v, x, skip, unserializable, t);
      assert order == init + [x];
      hide SaveAll, SaveOne;
    }
  }

  lemma FinishExcuses(s: State, x: Thread, id: nat, skip: bool, t: Thread)
    ensures t in Finish(s, x, id, skip).excused ==> t in s.excused || (x == t && skip)
  {
  }

  lemma StepExcuses(s: State, e: Event, t: Thread)
    requires Possible(s, e) && t in Step(s, e).excused
    ensures t in s.excused || Skips(s, e, t)
  {
    hide SaveAll, Finish, Suspend;
    match e
    case EditThread(_, _) =>
    case Tick(order, skips, unserializable) => SaveAllVisits(s.(timer := false), order, skips, unserializable, t);
    case CheckQuit(order, skips, unserializable) => SaveAllVisits(s, order, skips, unserializable, t);
    case Done(id, skip) => FinishExcuses(s.(wire := TakeSent(s.wire, id)), s.wire.sent[id].thread, id, skip, t);
    case Failed(id, _, skip) => FinishExcuses(s.(wire := TakeSent(s.wire, id)), s.wire.sent[id].thread, id, skip, t);
    case Refreshed(id, _, skip) =>
      FinishExcuses(s.(wire := TakeRefreshing(s.wire, id)), s.wire.refreshing[id].thread, id, skip, t);
    case Dies(_) =>
  }

  ghost predicate SkippedIn(states: seq<State>, events: seq<Event>, n: nat, t: Thread)
    requires n <= |events| <= |states|
  {
    exists i :: 0 <= i < n && Skips(states[i], events[i], t)
  }

  /** A thread is excused only if some event before said that its draft is skipped or does not serialize. */
  lemma {:induction false} ExcusedWereSkipped(states: seq<State>, events: seq<Event>, n: nat, t: Thread)
    requires IsRun(states, events) && n < |states| && t in states[n].excused
    ensures SkippedIn(states, events, n, t)
  {
    assert n > 0;
    hide Step, Possible, Skips;
    StepExcuses(states[n - 1], events[n - 1], t);
    if t in states[n - 1].excused { ExcusedWereSkipped(states, events, n - 1, t); }
  }

  /** A request of the thread is on the wire for the first time, with its last edit. */
  ghost predicate SendsLast(s: State, u: State, t: Thread) {
    && t in u.saves && !u.saves[t].changedWhileSaving
    && var id := u.saves[t].requestId;
       && s.wire.lastId < id && id in u.wire.sent
       && u.wire.sent[id].thread == t && u.wire.sent[id].version == Get(s.edited, t)
  }

  /**
    In every run, when the timer fires or quitting is checked: each living thread that was unsent has its last edit on
    the wire afterwards, unless it is skipped or does not serialize, and then its entry is gone; a save in flight stays
    as it was; and no entry of a dead thread is left.
   */
  lemma TicksSend(states: seq<State>, events: seq<Event>, n: nat, t: Thread)
    requires IsRun(states, events) && n < |events| && (events[n].Tick? || events[n].CheckQuit?)
    ensures var s, u, skipped := states[n], states[n + 1], Skips(states[n], events[n], t);
            && (t in s.dead ==> t !in u.saves)
            && (t in s.saves && t !in s.dead ==>
                  if s.saves[t].requestId != 0 then
                    t in u.saves && u.saves[t] == s.saves[t] && Outstanding(u, u.saves[t].requestId, t)
                  else if skipped then t !in u.saves
                  else SendsLast(s, u, t))
            && (t !in s.saves ==> t !in u.saves)
  {
    var s, u, e := states[n], states[n + 1], events[n];
    RunKeeps(states, events, n);
    RunKeeps(states, events, n + 1);
    var v := if e.Tick? then s.(timer := false) else s;
    assert u == SaveAll(v, e.order, e.skips, e.unserializable);
    assert t in s.saves ==> t in e.order;
    hide IsRun, Step, Possible, Counting, SaveAll;
    SaveAllVisits(v, e.order, e.skips, e.unserializable, t);
    SaveAllWorld(v, e.order, e.skips, e.unserializable);
    if t in u.saves && t !in u.dead && u.saves[t].requestId != 0 { OutstandingEntry(u, t); }
    OldRefreshing(s);
  }

  lemma OutstandingEntry(s: State, t: Thread)
    requires Tracking(s, {}) && t in s.saves && t !in s.dead && s.saves[t].requestId != 0
    ensures var id := s.saves[t].requestId;
            && Outstanding(s, id, t)
            && (id in s.wire.sent && s.wire.sent[id].thread == t ==> s.wire.sent[id].version == Get(s.lastSent, t))
  {
  }

  lemma OldRefreshing(s: State)
    requires RequestsTracked(s)
    ensures forall id :: id in s.wire.refreshing ==> id <= s.wire.lastId
  {
  }

  /** The end of a save: its entry is gone, or unsent again with the timer armed if the thread was edited meanwhile. */
  ghost predicate Settled(s: State, u: State, t: Thread, skip: bool) {
    && (t !in s.dead ==>
          if t in s.saves && s.saves[t].changedWhileSaving && !skip
          then t in u.saves && u.saves[t] == Save(0, false) && u.timer
          else t !in u.saves)
    && forall x :: x != t ==> (x in u.saves <==> x in s.saves) && (x in s.saves ==> u.saves[x] == s.saves[x])
  }

  lemma FinishSettles(s: State, t: Thread, id: nat, skip: bool)
    requires t !in s.dead ==> t in s.saves && s.saves[t].requestId == id
    ensures Settled(s, Finish(s, t, id, skip), t, skip)
  {
  }

  lemma AnsweredEntry(s: State, id: nat)
    requires Inv(s) && id in s.wire.sent
    ensures var t := s.wire.sent[id].thread; t !in s.dead ==> t in s.saves && s.saves[t].requestId == id
  {
    hide EntriesWork, EditsTracked, CloudIdsOwn, Counted;
  }

  /**
    In every run: an edit leaves its thread unsent with the timer armed, or marks the save in flight; a reply ends the
    save, except that the first file reference error of one keeps it, and the refreshed reference then sends the same
    draft once more under a new id that the entry names.
   */
  lemma RepliesAct(states: seq<State>, events: seq<Event>, n: nat)
    requires IsRun(states, events) && n < |events|
    ensures var s, u := states[n], states[n + 1];
            match events[n]
            case EditThread(t, skip) =>
              if skip then u.saves == s.saves
              else
                && t in u.saves && t !in u.excused
                && (if t in s.saves && s.saves[t].requestId != 0 then u.saves[t] == Save(s.saves[t].requestId, true)
                    else u.saves[t].requestId == 0 && u.timer)
            case Done(id, skip) =>
              u.wire == TakeSent(s.wire, id) && Settled(s, u, s.wire.sent[id].thread, skip)
            case Failed(id, fileReference, skip) =>
              var r := s.wire.sent[id];
              if fileReference && !r.refreshed then
                u.saves == s.saves && id !in u.wire.sent && u.wire.refreshing == s.wire.refreshing[id := r]
              else u.wire == TakeSent(s.wire, id) && Settled(s, u, r.thread, skip)
            case Refreshed(id, serializes, skip) =>
              var r, next := s.wire.refreshing[id], u.wire.lastId;
              if serializes then
                && next > s.wire.lastId && u.wire.sent == s.wire.sent[next := r.(refreshed := true)]
                && u.wire.refreshing == s.wire.refreshing - {id}
                && (r.thread !in s.dead ==>
                      && r.thread in s.saves && s.saves[r.thread].requestId == id
                      && u.saves == s.saves[r.thread := s.saves[r.thread].(requestId := next)])
              else u.wire == TakeRefreshing(s.wire, id) && Settled(s, u, r.thread, skip)
            case _ => true
  {
    var s, e := states[n], events[n];
    RunKeeps(states, events, n);
    hide Inv, Finish, SaveAll, Settled;
    match e
    case Done(id, skip) =>
      AnsweredEntry(s, id);
      FinishSends(s.(wire := TakeSent(s.wire, id)), s.wire.sent[id].thread, id, skip);
      SameSettles(s, TakeSent(s.wire, id), s.wire.sent[id].thread, id, skip);
    case Failed(id, _, skip) =>
      AnsweredEntry(s, id);
      FinishSends(s.(wire := TakeSent(s.wire, id)), s.wire.sent[id].thread, id, skip);
      SameSettles(s, TakeSent(s.wire, id), s.wire.sent[id].thread, id, skip);
    case Refreshed(id, _, skip) =>
      RefreshingEntry(s, id);
      FinishSends(s.(wire := TakeRefreshing(s.wire, id)), s.wire.refreshing[id].thread, id, skip);
      SameSettles(s, TakeRefreshing(s.wire, id), s.wire.refreshing[id].thread, id, skip);
    case _ =>
  }

  lemma RefreshingEntry(s: State, id: nat)
    requires Inv(s) && id in s.wire.refreshing
    ensures var t := s.wire.refreshing[id].thread; t !in s.dead ==> t in s.saves && s.saves[t].requestId == id
  {
    hide EntriesWork, EditsTracked, CloudIdsOwn, Counted;
  }

  lemma SameSettles(s: State, w: Wire, t: Thread, id: nat, skip: bool)
    requires t !in s.dead ==> t in s.saves && s.saves[t].requestId == id
    ensures Settled(s, Finish(s.(wire := w), t, id, skip), t, skip)
  {
    FinishSettles(s.(wire := w), t, id, skip);
    hide Finish;
  }

  // ---------- the class ----------

  class DraftSaves {
    var draftSaves: map<Thread, Save>
    var timerActive: bool
    var saveRequestId: map<Thread, nat>
    // the world around it: the transport, dead threads, versions of drafts
    var wire: Wire
    var dead: set<Thread>
    var edited: map<Thread, nat>
    var lastSent: map<Thread, nat>
    var excused: set<Thread>

    function Abs(): State
      reads this
    {
      State(dead, draftSaves, timerActive, saveRequestId, wire, edited, lastSent, excused)
    }

    constructor ()
      ensures Abs() == INITIAL
    {
      draftSaves, timerActive, saveRequestId := map[], false, map[];
      wire, dead, edited, lastSent, excused := Wire(map[], map[], 0, 0, map[]), {}, map[], map[], {};
    }

    method SaveDraftToCloudDelayed(t: Thread, skip: bool)
      modifies this
      ensures Abs() == Delayed(old(Abs()), t, skip)
    {
      if skip {
        excused := excused + {t};
        return;
      }
      var inserted := t !in draftSaves;
      if inserted {
        draftSaves := draftSaves[t := Save(0, false)];
      }
      if !inserted && draftSaves[t].requestId != 0 {
        draftSaves := draftSaves[t := draftSaves[t].(changedWhileSaving := true)];
      }
      excused := excused - {t};
      if !timerActive {
        timerActive := true;
      }
      ghost var was := old(draftSaves);
      assert draftSaves == was[t := draftSaves[t]];
    }

    method SendRequest(t: Thread)
      modifies this
      ensures Abs() == SendSave(old(Abs()), t)
    {
      var version := Get(edited, t);
      wire := SendFirst(wire, Get(saveRequestId, t), t, version);
      saveRequestId := saveRequestId[t := wire.lastId];
      draftSaves := draftSaves[t := Save(wire.lastId, false)];
      lastSent := lastSent[t := version];
    }

    /** The loop visits the entries in an order of its own; erasing is in place. */
    method SaveDraftsToCloud(skip: set<Thread>, unserializable: set<Thread>) returns (ghost order: seq<Thread>)
      modifies this
      ensures Enumerates(order, old(draftSaves).Keys)
      ensures Abs() == SaveAll(old(Abs()), order, skip, unserializable)
    {
      hide SendSave, Delayed;
      order := [];
      var todo := draftSaves.Keys;
      while todo != {}
        invariant todo <= old(draftSaves).Keys
        invariant forall t :: t in order ==> t in old(draftSaves)
        invariant forall t :: t in old(draftSaves) ==> t in order || t in todo
        invariant Abs() == SaveAll(old(Abs()), order, skip, unserializable)
        decreases |todo|
      {
        var t :| t in todo;
        todo := todo - {t};
        ghost var visited := order;
        order := order + [t];
        assert order[..|order| - 1] == visited;
        if t !in draftSaves {
        } else if t in dead {
          draftSaves := draftSaves - {t};
        } else if draftSaves[t].requestId != 0 {
        } else if t in skip || t in unserializable {
          draftSaves := draftSaves - {t};
          excused := excused + {t};
        } else {
          SendRequest(t);
        }
      }
    }

    /** The common part of the done handler and of failCleanup. */
    method OnFinished(t: Thread, id: nat, skip: bool)
      modifies this
      ensures Abs() == Finish(old(Abs()), t, id, skip)
    {
      if Get(saveRequestId, t) == id {
        saveRequestId := saveRequestId[t := 0];
      }
      if t in draftSaves && draftSaves[t].requestId == id {
        var changed := draftSaves[t].changedWhileSaving;
        draftSaves := draftSaves - {t};
        if changed && t !in dead {
          SaveDraftToCloudDelayed(t, skip);
        }
      }
    }

    method OnDone(id: nat, skip: bool)
      requires Possible(Abs(), Done(id, skip))
      modifies this
      ensures Abs() == Step(old(Abs()), Done(id, skip))
    {
      var t := wire.sent[id].thread;
      wire := TakeSent(wire, id);
      OnFinished(t, id, skip);
    }

    method OnFail(id: nat, fileReference: bool, skip: bool)
      requires Possible(Abs(), Failed(id, fileReference, skip))
      modifies this
      ensures Abs() == Step(old(Abs()), Failed(id, fileReference, skip))
    {
      var r := wire.sent[id];
      if !r.refreshed && fileReference {
        wire := Suspend(wire, id);
        return;
      }
      wire := TakeSent(wire, id);
      OnFinished(r.thread, id, skip);
    }

    method OnRefreshed(id: nat, serializes: bool, skip: bool)
      requires Possible(Abs(), Refreshed(id, serializes, skip))
      modifies this
      ensures Abs() == Step(old(Abs()), Refreshed(id, serializes, skip))
    {
      var r := wire.refreshing[id];
      wire := TakeRefreshing(wire, id);
      if !serializes {
        OnFinished(r.thread, id, skip);
        return;
      }
      wire := SendAgain(wire, r);
      saveRequestId := saveRequestId[r.thread := wire.lastId];
      if r.thread in draftSaves {
        draftSaves := draftSaves[r.thread := draftSaves[r.thread].(requestId := wire.lastId)];
      }
      lastSent := lastSent[r.thread := r.version];
    }
  }
}
