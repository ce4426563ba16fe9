/**
  Cloud password reloading (api/api_cloud_password.cpp): two requests that exclude each other
  share one queue of callbacks.

  A callback, and a subscriber to the state, may call back into the object while it runs; the
  calls it makes are part of the event. A reply to a cancelled request may still arrive.
 */
module CloudPassword {
  import opened Wrappers

  type Callback = nat

  datatype Password = Password(content: string)

  datatype Kind = GetPassword | CancelEmail

  /** A request that was sent and not answered yet. */
  datatype Request = Request(kind: Kind, cancelled: bool)

  /** A callback together with what it was called with. */
  datatype Invocation = Invocation(callback: Callback, result: Option<Password>)

  datatype Call = Reload(callback: Option<Callback>) | ClearUnconfirmed

  datatype State = State(
    reloadRequestId: nat, cancelEmailRequestId: nat, callbacks: seq<Callback>, current: Option<Password>,
    sent: map<nat, Request>, lastId: nat, registered: seq<Callback>, invoked: seq<Invocation>)

  const INITIAL := State(0, 0, [], None, map[], 0, [], [])

  // ---------- what each call does ----------

  function Send(s: State, kind: Kind): State {
    s.(lastId := s.lastId + 1, sent := s.sent[s.lastId + 1 := Request(kind, false)])
  }

  function Cancel(s: State, id: nat): State {
    if id in s.sent then s.(sent := s.sent[id := s.sent[id].(cancelled := true)]) else s
  }

  function AddCallback(s: State, callback: Option<Callback>): State {
    match callback
    case None => s
    case Some(c) => s.(callbacks := s.callbacks + [c], registered := s.registered + [c])
  }

  function StartReload(s: State): State {
    if s.reloadRequestId != 0 || s.cancelEmailRequestId != 0 then s
    else Send(s, GetPassword).(reloadRequestId := s.lastId + 1)
  }

  function StartCancelEmail(s: State): State {
    if s.cancelEmailRequestId != 0 then s
    else Send(Cancel(s, s.reloadRequestId), CancelEmail).(reloadRequestId := 0, cancelEmailRequestId := s.lastId + 1)
  }

  function Perform(s: State, c: Call): State {
    match c
    case Reload(callback) => StartReload(AddCallback(s, callback))
    case ClearUnconfirmed => StartCancelEmail(s)
  }

  function PerformAll(s: State, calls: seq<Call>): State
    decreases |calls|
  {
    if |calls| == 0 then s else Perform(PerformAll(s, calls[..|calls| - 1]), calls[|calls| - 1])
  }

  /** The callbacks are invoked in turn; during[i] are the calls the i-th of them makes. */
  function InvokeAll(s: State, list: seq<Callback>, result: Option<Password>, during: seq<seq<Call>>): State
    requires |during| == |list|
    decreases |list|
  {
    if |list| == 0 then s
    else
      var before := InvokeAll(s, list[..|list| - 1], result, during[..|list| - 1]);
      PerformAll(before.(invoked := before.invoked + [Invocation(list[|list| - 1], result)]), during[|list| - 1])
  }

  datatype Event =
    | User(call: Call)
    | Reply(id: nat, result: Option<Password>, subscribers: seq<Call>, during: seq<seq<Call>>)

  predicate Possible(s: State, e: Event) {
    match e
    case User(_) => true
    case Reply(id, _, _, during) => id in s.sent && |during| == |s.callbacks|
  }

  function Answered(s: State, id: nat): State { s.(sent := s.sent - {id}) }

  function GotPassword(s: State, result: Option<Password>, subscribers: seq<Call>, during: seq<seq<Call>>): State
    requires |during| == |s.callbacks|
  {
    var list := s.callbacks;
    var taken := s.(reloadRequestId := 0, callbacks := []);
    if result.Some? then InvokeAll(PerformAll(taken.(current := result), subscribers), list, result, during)
    else InvokeAll(taken, list, result, during)
  }

  function Step(s: State, e: Event): State
    requires Possible(s, e)
  {
    match e
    case User(c) => Perform(s, c)
    case Reply(id, result, subscribers, during) =>
      var answered := Answered(s, id);
      match s.sent[id].kind
      case GetPassword =>
        if s.reloadRequestId != id then answered else GotPassword(answered, result, subscribers, during)
      case CancelEmail =>
        if s.cancelEmailRequestId != id then answered
        else Perform(answered.(cancelEmailRequestId := 0), Reload(None))
  }

  // ---------- what every run keeps ----------

  ghost predicate InFlight(s: State, id: nat, kind: Kind) {
    id in s.sent && s.sent[id] == Request(kind, false)
  }

  /** The requests in flight are exactly the recorded ones, and there are never two of them. */
  ghost predicate RequestsMatch(s: State) {
    && (forall id | id in s.sent :: 0 < id <= s.lastId)
    && (forall id | id in s.sent :: InFlight(s, id, GetPassword) <==> id == s.reloadRequestId)
    && (forall id | id in s.sent :: InFlight(s, id, CancelEmail) <==> id == s.cancelEmailRequestId)
    && (s.reloadRequestId != 0 ==> s.reloadRequestId in s.sent)
    && (s.cancelEmailRequestId != 0 ==> s.cancelEmailRequestId in s.sent)
    && (s.reloadRequestId == 0 || s.cancelEmailRequestId == 0)
  }

  ghost predicate SomebodyAnswers(s: State) {
    s.callbacks != [] ==> s.reloadRequestId != 0 || s.cancelEmailRequestId != 0
  }

  function Invoked(s: State): (r: seq<Callback>)
    ensures |r| == |s.invoked|
  {
    seq(|s.invoked|, i requires 0 <= i < |s.invoked| => s.invoked[i].callback)
  }

  ghost predicate Inv(s: State) {
    && RequestsMatch(s)
    && SomebodyAnswers(s)
    && s.registered == Invoked(s) + s.callbacks
  }

  /** While the callbacks `rest` are still to be invoked: registered, not invoked, not queued. */
  ghost predicate InvWith(s: State, rest: seq<Callback>) {
    && RequestsMatch(s)
    && SomebodyAnswers(s)
    && s.registered == Invoked(s) + rest + s.callbacks
  }

  lemma PerformKeeps(s: State, c: Call, rest: seq<Callback>)
    requires InvWith(s, rest)
    ensures InvWith(Perform(s, c), rest)
  {
    match c
    case Reload(callback) => assert Invoked(AddCallback(s, callback)) == Invoked(s);
    case ClearUnconfirmed => ClearKeeps(s, rest);
  }

  lemma ClearKeeps(s: State, rest: seq<Callback>)
    requires InvWith(s, rest)
    ensures InvWith(StartCancelEmail(s), rest)
  {
    var t := StartCancelEmail(s);
    assert Invoked(t) == Invoked(s);
  }

  lemma {:induction false} PerformAllKeeps(s: State, calls: seq<Call>, rest: seq<Callback>)
    requires InvWith(s, rest)
    ensures InvWith(PerformAll(s, calls), rest)
    decreases |calls|
  {
    if |calls| > 0 {
      PerformAllKeeps(s, calls[..|calls| - 1], rest);
      PerformKeeps(PerformAll(s, calls[..|calls| - 1]), calls[|calls| - 1], rest);
    }
  }

  lemma InvokeKeeps(s: State, c: Callback, result: Option<Password>, rest: seq<Callback>)
    requires InvWith(s, [c] + rest)
    ensures InvWith(s.(invoked := s.invoked + [Invocation(c, result)]), rest)
  {
    var t := s.(invoked := s.invoked + [Invocation(c, result)]);
    assert Invoked(t) == Invoked(s) + [c];
  }

  lemma {:induction false} InvokeAllKeeps(
    s: State, list: seq<Callback>, result: Option<Password>, during: seq<seq<Call>>, rest: seq<Callback>)
    requires |during| == |list| && InvWith(s, list + rest)
    ensures InvWith(InvokeAll(s, list, result, during), rest)
    decreases |list|
  {
    if |list| == 0 {
      assert list + rest == rest;
    } else {
      var n := |list| - 1;
      assert list + rest == list[..n] + ([list[n]] + rest);
      InvokeAllKeeps(s, list[..n], result, during[..n], [list[n]] + rest);
      var before := InvokeAll(s, list[..n], result, during[..n]);
      InvokeKeeps(before, list[n], result, rest);
      PerformAllKeeps(before.(invoked := before.invoked + [Invocation(list[n], result)]), during[n], rest);
    }
  }

  lemma PasswordReplyKeeps(
    s: State, id: nat, result: Option<Password>, subscribers: seq<Call>, during: seq<seq<Call>>)
    requires Inv(s) && id in s.sent && s.reloadRequestId == id && |during| == |s.callbacks|
    ensures Inv(GotPassword(Answered(s, id), result, subscribers, during))
  {
    var list := s.callbacks;
    var taken := Answered(s, id).(reloadRequestId := 0, callbacks := []);
    assert list + [] == list;
    assert InvWith(taken, list);
    if result.Some? {
      var applied := taken.(current := result);
      PerformAllKeeps(applied, subscribers, list);
      InvokeAllKeeps(PerformAll(applied, subscribers), list, result, during, []);
    } else {
      InvokeAllKeeps(taken, list, result, during, []);
    }
    WithNothing(GotPassword(Answered(s, id), result, subscribers, during));
  }

  lemma WithNothing(s: State)
    ensures InvWith(s, []) <==> Inv(s)
  {
    assert Invoked(s) + [] == Invoked(s);
  }

  lemma CancelReplyKeeps(s: State, id: nat)
    requires Inv(s) && id in s.sent && s.cancelEmailRequestId == id
    ensures Inv(Perform(Answered(s, id).(cancelEmailRequestId := 0), Reload(None)))
  {
  }

  lemma StaleReplyKeeps(s: State, id: nat)
    requires Inv(s) && id in s.sent && s.reloadRequestId != id && s.cancelEmailRequestId != id
    ensures Inv(Answered(s, id))
  {
  }

  lemma StepKeeps(s: State, e: Event)
    requires Inv(s) && Possible(s, e)
    ensures Inv(Step(s, e))
  {
    match e
    case User(c) =>
      WithNothing(s);
      PerformKeeps(s, c, []);
      WithNothing(Step(s, e));
    case Reply(id, result, subscribers, during) =>
      if s.reloadRequestId == id {
        PasswordReplyKeeps(s, id, result, subscribers, during);
      } else if s.cancelEmailRequestId == id {
        CancelReplyKeeps(s, id);
      } else {
        StaleReplyKeeps(s, id);
      }
  }

  /** A run: states linked by possible events, from the fresh object on. */
  ghost predicate IsRun(states: seq<State>, events: seq<Event>) {
    && |states| == |events| + 1
    && states[0] == INITIAL
    && forall i :: 0 <= i < |events| ==> Possible(states[i], events[i]) && states[i + 1] == Step(states[i], events[i])
  }

  lemma {:induction false} RunKeeps(states: seq<State>, events: seq<Event>, n: nat)
    requires IsRun(states, events) && n < |states|
    ensures Inv(states[n])
  {
    if n > 0 {
      RunKeeps(states, events, n - 1);
      StepKeeps(states[n - 1], events[n - 1]);
    }
  }

  /** The ids of the requests that are in flight and not cancelled. */
  ghost function Live(s: State): set<nat> {
    set id | id in s.sent && !s.sent[id].cancelled
  }

  /**
    In every run: never two requests in flight; a waiting callback has one in flight that will answer it; and the
    callbacks invoked so far, followed by those waiting, are exactly the registered ones in their order, so that
    each is invoked exactly once, and all of them have been once nothing is in flight.
   */
  lemma EveryCallbackOnce(states: seq<State>, events: seq<Event>, n: nat)
    requires IsRun(states, events) && n < |states|
    ensures var s := states[n];
            && (forall a, b :: a in Live(s) && b in Live(s) ==> a == b)
            && (s.callbacks != [] ==> Live(s) != {})
            && Invoked(s) + s.callbacks == s.registered
            && (Live(s) == {} ==> Invoked(s) == s.registered)
  {
    RunKeeps(states, events, n);
    var s := states[n];
    forall id | id in Live(s)
      ensures id == s.reloadRequestId || id == s.cancelEmailRequestId
    {
      var r := s.sent[id];
      assert r == Request(r.kind, false) && (r.kind == GetPassword || r.kind == CancelEmail);
      assert InFlight(s, id, r.kind);
    }
    if s.callbacks != [] {
      var id := if s.reloadRequestId != 0 then s.reloadRequestId else s.cancelEmailRequestId;
      assert id in Live(s);
    }
    assert Invoked(s) + [] == Invoked(s);
  }

  // ---------- what calls and replies do ----------

  /** The callbacks that calls bring, in order. */
  function Brought(calls: seq<Call>): seq<Callback> {
    if |calls| == 0 then []
    else Brought(calls[..|calls| - 1]) + match calls[|calls| - 1] case Reload(Some(c)) => [c] case _ => []
  }

  function BroughtDuring(during: seq<seq<Call>>): seq<Callback> {
    if |during| == 0 then [] else BroughtDuring(during[..|during| - 1]) + Brought(during[|during| - 1])
  }

  lemma {:induction false} PerformAllBrings(s: State, calls: seq<Call>)
    ensures var u := PerformAll(s, calls);
            && u.callbacks == s.callbacks + Brought(calls) && u.registered == s.registered + Brought(calls)
            && u.invoked == s.invoked && u.current == s.current
    decreases |calls|
  {
    if |calls| > 0 { PerformAllBrings(s, calls[..|calls| - 1]); }
  }

  /** Every callback of a list, called with one result. */
  function Invocations(list: seq<Callback>, result: Option<Password>): (r: seq<Invocation>)
    ensures |r| == |list|
  {
    seq(|list|, i requires 0 <= i < |list| => Invocation(list[i], result))
  }

  lemma {:induction false} InvokeAllInvokes(s: State, list: seq<Callback>, result: Option<Password>,
                                            during: seq<seq<Call>>)
    requires |during| == |list|
    ensures var u := InvokeAll(s, list, result, during);
            && u.invoked == s.invoked + Invocations(list, result) && u.current == s.current
            && u.callbacks == s.callbacks + BroughtDuring(during)
            && u.registered == s.registered + BroughtDuring(during)
    decreases |list|
  {
    if |list| == 0 {
      assert s.invoked + Invocations(list, result) == s.invoked;
    } else {
      var n := |list| - 1;
      InvokeAllInvokes(s, list[..n], result, during[..n]);
      var before := InvokeAll(s, list[..n], result, during[..n]);
      PerformAllBrings(before.(invoked := before.invoked + [Invocation(list[n], result)]), during[n]);
      assert Invocations(list, result) == Invocations(list[..n], result) + [Invocation(list[n], result)];
      hide PerformAll, Brought, Invocations;
    }
  }

  /** The one request in flight is of a kind. */
  ghost predicate LiveIs(s: State, kind: Kind) {
    Live(s) != {} && forall id :: id in Live(s) ==> s.sent[id].kind == kind
  }

  /** What a call makes of the requests, and whose callback it keeps. */
  ghost predicate Performs(s: State, u: State, c: Call) {
    && u.callbacks == s.callbacks + Brought([c]) && u.registered == s.registered + Brought([c])
    && u.invoked == s.invoked && u.current == s.current
    && match c
       case Reload(_) => if Live(s) == {} then LiveIs(u, GetPassword) else u.sent == s.sent
       case ClearUnconfirmed => LiveIs(u, CancelEmail) && (LiveIs(s, CancelEmail) ==> u.sent == s.sent)
  }

  lemma LiveIds(s: State)
    requires RequestsMatch(s)
    ensures forall id :: id in Live(s) <==> id != 0 && (id == s.reloadRequestId || id == s.cancelEmailRequestId)
    ensures s.reloadRequestId != 0 ==> LiveIs(s, GetPassword)
    ensures s.cancelEmailRequestId != 0 ==> LiveIs(s, CancelEmail)
  {
    forall id | id in s.sent
      ensures !s.sent[id].cancelled <==> id == s.reloadRequestId || id == s.cancelEmailRequestId
    {
      var r := s.sent[id];
      assert r.kind == GetPassword || r.kind == CancelEmail;
      assert InFlight(s, id, GetPassword) <==> r.kind == GetPassword && !r.cancelled;
      assert InFlight(s, id, CancelEmail) <==> r.kind == CancelEmail && !r.cancelled;
    }
    if s.reloadRequestId != 0 { assert s.reloadRequestId in Live(s); }
    if s.cancelEmailRequestId != 0 { assert s.cancelEmailRequestId in Live(s); }
  }

  lemma CallPerforms(s: State, c: Call)
    requires Inv(s)
    ensures Performs(s, Perform(s, c), c)
  {
    WithNothing(s);
    PerformKeeps(s, c, []);
    LiveIds(s);
    LiveIds(Perform(s, c));
    PerformAllBrings(s, [c]);
    assert [c][..0] == [];
    assert PerformAll(s, [c]) == Perform(s, c);
    hide RequestsMatch, PerformAll, Brought, Live, LiveIs;
    match c
    case Reload(callback) => NoneLive(s);
    case ClearUnconfirmed => OtherKind(s);
  }

  lemma NoneLive(s: State)
    requires RequestsMatch(s)
    ensures Live(s) == {} <==> s.reloadRequestId == 0 && s.cancelEmailRequestId == 0
  {
    LiveIds(s);
    if s.reloadRequestId != 0 { assert s.reloadRequestId in Live(s); }
    if s.cancelEmailRequestId != 0 { assert s.cancelEmailRequestId in Live(s); }
    hide RequestsMatch;
  }

  lemma OtherKind(s: State)
    requires RequestsMatch(s)
    ensures LiveIs(s, CancelEmail) ==> s.cancelEmailRequestId != 0
  {
    LiveIds(s);
    NoneLive(s);
    hide RequestsMatch;
    if s.reloadRequestId != 0 {
      assert s.reloadRequestId in Live(s);
      assert s.sent[s.reloadRequestId].kind == GetPassword;
    }
  }

  /**
    In every run a call to reload keeps its callback and leaves a request in flight, a new one only if there was none; a
    call to clear leaves the one that cancels in flight and no other.
   */
  lemma CallsAct(states: seq<State>, events: seq<Event>, n: nat, c: Call)
    requires IsRun(states, events) && n < |events| && events[n] == User(c)
    ensures Performs(states[n], states[n + 1], c)
  {
    RunKeeps(states, events, n);
    assert states[n + 1] == Perform(states[n], c);
    hide *;
    CallPerforms(states[n], c);
  }

  /** The callbacks that come while a reply is handled. */
  function BroughtBy(e: Event): seq<Callback>
    requires e.Reply?
  {
    (if e.result.Some? then Brought(e.subscribers) else []) + BroughtDuring(e.during)
  }

  lemma GotPasswordActs(s: State, result: Option<Password>, subscribers: seq<Call>, during: seq<seq<Call>>)
    requires |during| == |s.callbacks|
    ensures var u := GotPassword(s, result, subscribers, during);
            && u.invoked == s.invoked + Invocations(s.callbacks, result)
            && u.current == (if result.Some? then result else s.current)
            && u.callbacks == (if result.Some? then Brought(subscribers) else []) + BroughtDuring(during)
  {
    var taken := s.(reloadRequestId := 0, callbacks := []);
    hide PerformAll, InvokeAll, Invocations, Brought, BroughtDuring;
    if result.Some? {
      PerformAllBrings(taken.(current := result), subscribers);
      InvokeAllInvokes(PerformAll(taken.(current := result), subscribers), s.callbacks, result, during);
    } else {
      InvokeAllInvokes(taken, s.callbacks, result, during);
    }
  }

  /** The reply of the reload request that is in flight. */
  predicate Answers(s: State, e: Event) {
    e.Reply? && e.id in s.sent && s.sent[e.id] == Request(GetPassword, false)
  }

  /**
    In every run the reply to the reload in flight calls exactly the callbacks that waited, in order, each with its own
    result, and those that come meanwhile wait on; the reply to the other request reloads; a late reply does nothing.
   */
  lemma RepliesAct(states: seq<State>, events: seq<Event>, n: nat)
    requires IsRun(states, events) && n < |events| && events[n].Reply?
    ensures var s, u, e := states[n], states[n + 1], events[n];
            if Answers(s, e) then
              && u.invoked == s.invoked + Invocations(s.callbacks, e.result)
              && u.current == (if e.result.Some? then e.result else s.current)
              && u.callbacks == BroughtBy(e)
            else
              && u.invoked == s.invoked && u.current == s.current && u.callbacks == s.callbacks
              && if s.sent[e.id].cancelled then u.sent == s.sent - {e.id} else LiveIs(u, GetPassword)
  {
    var s, u, e := states[n], states[n + 1], events[n];
    RunKeeps(states, events, n);
    RunKeeps(states, events, n + 1);
    LiveIds(s);
    LiveIds(u);
    assert u == Step(s, e) && Possible(s, e);
    assert e.id in Live(s) <==> !s.sent[e.id].cancelled;
    hide IsRun, Inv, RequestsMatch, Live, LiveIs, GotPassword;
    GotPasswordActs(Answered(s, e.id), e.result, e.subscribers, e.during);
  }

  /** The state of the last reload that was answered with one. */
  ghost function LastState(states: seq<State>, events: seq<Event>, n: nat): Option<Password>
    requires IsRun(states, events) && n <= |events|
  {
    if n == 0 then None
    else if Answers(states[n - 1], events[n - 1]) && events[n - 1].result.Some? then events[n - 1].result
    else LastState(states, events, n - 1)
  }

  lemma {:induction false} CurrentIsLast(states: seq<State>, events: seq<Event>, n: nat)
    requires IsRun(states, events) && n < |states|
    ensures states[n].current == LastState(states, events, n)
  {
    if n > 0 {
      CurrentIsLast(states, events, n - 1);
      match events[n - 1]
      case User(c) => CallsAct(states, events, n - 1, c); hide Step;
      case Reply(_, _, _, _) => RepliesAct(states, events, n - 1); hide Step;
    }
  }

  // ---------- the class ----------

  class CloudPassword {
    var reloadRequestId: nat
    var cancelEmailRequestId: nat
    var callbacks: seq<Callback>
    var state: Option<Password>
    // the transport
    var sent: map<nat, Request>
    var lastId: nat
    // what happened
    var registered: seq<Callback>
    var invoked: seq<Invocation>

    function Abs(): State
      reads this
    {
      State(reloadRequestId, cancelEmailRequestId, callbacks, state, sent, lastId, registered, invoked)
    }

    constructor ()
      ensures Abs() == INITIAL
    {
      reloadRequestId, cancelEmailRequestId, callbacks, state := 0, 0, [], None;
      sent, lastId, registered, invoked := map[], 0, [], [];
    }

    method SendRequest(kind: Kind) returns (id: nat)
      modifies this
      ensures Abs() == Send(old(Abs()), kind) && id == lastId
    {
      lastId := lastId + 1;
      id := lastId;
      sent := sent[id := Request(kind, false)];
    }

    method CancelRequest(id: nat)
      modifies this
      ensures Abs() == Cancel(old(Abs()), id)
    {
      if id in sent {
        sent := sent[id := sent[id].(cancelled := true)];
      }
    }

    method ReloadState(callback: Option<Callback>)
      modifies this
      ensures Abs() == Perform(old(Abs()), Reload(callback))
    {
      if callback.Some? {
        callbacks := callbacks + [callback.value];
        registered := registered + [callback.value];
      }
      if reloadRequestId != 0 || cancelEmailRequestId != 0 {
        return;
      }
      reloadRequestId := SendRequest(GetPassword);
    }

    method ClearUnconfirmedPassword()
      modifies this
      ensures Abs() == Perform(old(Abs()), ClearUnconfirmed)
    {
      if cancelEmailRequestId != 0 {
        return;
      }
      CancelRequest(reloadRequestId);
      reloadRequestId := 0;
      cancelEmailRequestId := SendRequest(CancelEmail);
    }

    method Run(calls: seq<Call>)
      modifies this
      ensures Abs() == PerformAll(old(Abs()), calls)
    {
      var i := 0;
      while i < |calls|
        invariant i <= |calls| && Abs() == PerformAll(old(Abs()), calls[..i])
      {
        assert calls[..i + 1][..i] == calls[..i];
        match calls[i] {
          case Reload(callback) => ReloadState(callback);
          case ClearUnconfirmed => ClearUnconfirmedPassword();
        }
        i := i + 1;
      }
      assert calls[..i] == calls;
    }

    /** The handlers of the reload request. */
    method OnPassword(id: nat, result: Option<Password>, subscribers: seq<Call>, during: seq<seq<Call>>)
      requires |during| == |callbacks|
      modifies this
      ensures Abs() == if old(reloadRequestId) != id then old(Abs())
                       else GotPassword(old(Abs()), result, subscribers, during)
    {
      if reloadRequestId != id {
        return;
      }
      reloadRequestId := 0;
      var list := callbacks;
      callbacks := [];
      if result.Some? {
        state := result;
        Run(subscribers);
      }
      ghost var before := Abs();
      var i := 0;
      while i < |list|
        invariant i <= |list| && Abs() == InvokeAll(before, list[..i], result, during[..i])
      {
        assert list[..i + 1][..i] == list[..i] && during[..i + 1][..i] == during[..i];
        invoked := invoked + [Invocation(list[i], result)];
        Run(during[i]);
        i := i + 1;
      }
      assert list[..i] == list && during[..i] == during;
    }

    /** The handler of the cancel-email request, for both outcomes. */
    method OnEmailCancelled(id: nat)
      modifies this
      ensures Abs() == if old(cancelEmailRequestId) != id then old(Abs())
                       else Perform(old(Abs()).(cancelEmailRequestId := 0), Reload(None))
    {
      if cancelEmailRequestId == id {
        cancelEmailRequestId := 0;
        ReloadState(None);
      }
    }

    /** A reply arrives. */
    method Receive(id: nat, result: Option<Password>, subscribers: seq<Call>, during: seq<seq<Call>>)
      requires Possible(Abs(), Reply(id, result, subscribers, during))
      modifies this
      ensures Abs() == Step(old(Abs()), Reply(id, result, subscribers, during))
    {
      var kind := sent[id].kind;
      sent := sent - {id};
      match kind {
        case GetPassword => OnPassword(id, result, subscribers, during);
        case CancelEmail => OnEmailCancelled(id);
      }
    }
  }
}
