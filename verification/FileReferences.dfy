/**
  Refreshing file references (apiwrap.cpp): one request for each origin, however many ask; all who asked are told when
  it is answered.

  Handlers are numbered as they come. A handler that asks again while it runs does so after its origin was taken out of
  the table, which is a later request here. Whether an origin can be asked for, and whether its request brings an
  additional handler, are choices of the environment.
 */
module FileReferences {
  type Origin = nat
  type Handler = nat

  /** _fileReferenceHandlers, the requests in flight, and the handlers called, in order. */
  datatype State = State(
    handlers: map<Origin, seq<Handler>>, wire: map<nat, Origin>, lastId: nat,
    registered: nat, called: seq<Handler>, crashed: bool)

  const INITIAL := State(map[], map[], 0, 0, [], false)

  /** requestFileReference */
  function Request(s: State, origin: Origin): State {
    var h := s.registered;
    if origin in s.handlers
    then s.(handlers := s.handlers[origin := s.handlers[origin] + [h]], registered := h + 1)
    else s.(handlers := s.handlers[origin := [h]], registered := h + 1,
            wire := s.wire[s.lastId + 1 := origin], lastId := s.lastId + 1)
  }

  /** The additional handler joins a list that was just started. */
  function Additional(s: State, origin: Origin): State {
    if origin !in s.handlers then s.(crashed := true)
    else if |s.handlers[origin]| == 1
    then s.(handlers := s.handlers[origin := s.handlers[origin] + [s.registered]], registered := s.registered + 1)
    else s
  }

  /** refreshFileReference: an origin that cannot be asked for tells its handler at once. */
  function Refresh(s: State, origin: Origin, askable: bool, additional: bool): State {
    if !askable then s.(registered := s.registered + 1, called := s.called + [s.registered])
    else if additional then Additional(Request(s, origin), origin)
    else Request(s, origin)
  }

  /** Done and failed answers: the handlers are taken out of the table, then called. */
  function Answer(s: State, id: nat): State
    requires id in s.wire
  {
    var origin, u := s.wire[id], s.(wire := s.wire - {id});
    if origin !in s.handlers then u.(crashed := true)
    else u.(handlers := s.handlers - {origin}, called := s.called + s.handlers[origin])
  }

  datatype Event = Refreshed(origin: Origin, askable: bool, additional: bool) | Answered(id: nat)

  predicate Possible(s: State, e: Event) { e.Answered? ==> e.id in s.wire }

  function Step(s: State, e: Event): State
    requires Possible(s, e)
  {
    match e
    case Refreshed(origin, askable, additional) => Refresh(s, origin, askable, additional)
    case Answered(id) => Answer(s, id)
  }

  // ---------- what every run keeps ----------

  ghost predicate Distinct(hs: seq<Handler>) { forall i, j :: 0 <= i < j < |hs| ==> hs[i] != hs[j] }

  ghost predicate Asked(wire: map<nat, Origin>, o: Origin) { exists id :: id in wire && wire[id] == o }

  /** Every origin in the table has one request in flight, and every request has its origin there. */
  ghost predicate WireFits(s: State) {
    && (forall id :: id in s.wire ==> 0 < id <= s.lastId && s.wire[id] in s.handlers)
    && (forall i, j :: i in s.wire && j in s.wire && s.wire[i] == s.wire[j] ==> i == j)
    && (forall o :: o in s.handlers ==> Asked(s.wire, o) && s.handlers[o] != [])
  }

  ghost predicate Waits(s: State, h: Handler, o: Origin) { o in s.handlers && h in s.handlers[o] }

  /** Every handler was called or waits, in one place, once. */
  ghost predicate HandlersFit(s: State) {
    && Distinct(s.called)
    && (forall o :: o in s.handlers ==> Distinct(s.handlers[o]))
    && (forall h: Handler, o: Origin :: Waits(s, h, o) ==> h < s.registered && h !in s.called)
    && (forall h: Handler, o: Origin, p: Origin :: Waits(s, h, o) && Waits(s, h, p) ==> o == p)
    && (forall h: Handler :: h in s.called ==> h < s.registered)
    && (forall h: Handler :: h < s.registered ==> h in s.called || exists o :: Waits(s, h, o))
  }

  ghost predicate Inv(s: State) { !s.crashed && WireFits(s) && HandlersFit(s) }

  lemma DistinctNext(hs: seq<Handler>, h: Handler)
    requires Distinct(hs) && h !in hs
    ensures Distinct(hs + [h])
  {
  }

  lemma DistinctConcat(a: seq<Handler>, b: seq<Handler>)
    requires Distinct(a) && Distinct(b) && forall h :: h in a ==> h !in b
    ensures Distinct(a + b)
  {
    var c := a + b;
    forall i, j | 0 <= i < j < |c|
      ensures c[i] != c[j]
    {
      if i < |a| <= j { assert a[i] in a && b[j - |a|] in b; }
    }
  }

  function Waiting(s: State, o: Origin): seq<Handler> { if o in s.handlers then s.handlers[o] else [] }

  /** A handler that comes to wait. */
  lemma JoinKeeps(s: State, u: State, o: Origin)
    requires HandlersFit(s) && u.called == s.called && u.registered == s.registered + 1
    requires u.handlers == s.handlers[o := Waiting(s, o) + [s.registered]]
    ensures HandlersFit(u)
  {
    forall h: Handler, p: Origin
      ensures Waits(u, h, p) <==> Waits(s, h, p) || (h == s.registered && p == o)
    {
    }
    assert s.registered !in Waiting(s, o) by { assert s.registered in Waiting(s, o) ==> Waits(s, s.registered, o); }
    DistinctNext(Waiting(s, o), s.registered);
    forall h: Handler | h < u.registered && h !in u.called
      ensures exists p :: Waits(u, h, p)
    {
      if h == s.registered {
        assert Waits(u, h, o);
      } else {
        var p :| Waits(s, h, p);
        assert Waits(u, h, p);
      }
    }
  }

  lemma RequestWire(s: State, o: Origin)
    requires WireFits(s)
    ensures WireFits(Request(s, o))
  {
    if o !in s.handlers {
      var wire := s.wire[s.lastId + 1 := o];
      forall p | p == o || Asked(s.wire, p) ensures Asked(wire, p) { AskedGrows(s.wire, s.lastId + 1, o, p); }
      hide Asked;
    }
  }

  lemma RequestKeeps(s: State, o: Origin)
    requires Inv(s)
    ensures Inv(Request(s, o))
  {
    assert o !in s.handlers ==> [] + [s.registered] == [s.registered];
    JoinKeeps(s, Request(s, o), o);
    hide HandlersFit, WireFits;
    RequestWire(s, o);
  }

  lemma AskedGrows(wire: map<nat, Origin>, id: nat, o: Origin, p: Origin)
    requires id !in wire && (p == o || Asked(wire, p))
    ensures Asked(wire[id := o], p)
  {
    if p == o {
      assert wire[id := o][id] == p;
    } else {
      var i :| i in wire && wire[i] == p;
      assert wire[id := o][i] == p;
    }
  }

  lemma AdditionalKeeps(s: State, o: Origin)
    requires Inv(s) && o in s.handlers
    ensures Inv(Additional(s, o))
  {
    if |s.handlers[o]| == 1 { JoinKeeps(s, Additional(s, o), o); }
    hide HandlersFit;
  }

  lemma AnswerHandlers(s: State, id: nat)
    requires Inv(s) && id in s.wire
    ensures HandlersFit(Answer(s, id))
  {
    var o, u := s.wire[id], Answer(s, id);
    forall h: Handler, p: Origin ensures Waits(u, h, p) <==> Waits(s, h, p) && p != o { }
    assert o in s.handlers;
    assert forall h :: h in s.handlers[o] <==> Waits(s, h, o);
    DistinctConcat(s.called, s.handlers[o]);
    assert forall h :: h in u.called <==> h in s.called || Waits(s, h, o);
    forall h: Handler | h < u.registered && h !in u.called
      ensures exists p :: Waits(u, h, p)
    {
      var p :| Waits(s, h, p);
      assert Waits(u, h, p);
    }
  }

  lemma AnswerKeeps(s: State, id: nat)
    requires Inv(s) && id in s.wire
    ensures Inv(Answer(s, id))
  {
    AnswerHandlers(s, id);
    hide HandlersFit;
    var o, u := s.wire[id], Answer(s, id);
    forall p | p in u.handlers
      ensures Asked(u.wire, p)
    {
      var i :| i in s.wire && s.wire[i] == p;
      assert i != id && u.wire[i] == p;
    }
  }

  lemma StepKeeps(s: State, e: Event)
    requires Inv(s) && Possible(s, e)
    ensures Inv(Step(s, e))
  {
    match e
    case Refreshed(o, askable, additional) =>
      if askable {
        hide Inv, Request, Additional;
        RequestKeeps(s, o);
        AdditionalKeeps(Request(s, o), o) by { assert o in Request(s, o).handlers by { RequestFinds(s, o); } }
      } else {
        ToldAtOnce(s);
      }
    case Answered(id) => hide Inv; AnswerKeeps(s, id);
  }

  lemma RequestFinds(s: State, o: Origin)
    ensures o in Request(s, o).handlers
  {
  }

  lemma ToldAtOnce(s: State)
    requires Inv(s)
    ensures Inv(s.(registered := s.registered + 1, called := s.called + [s.registered]))
  {
    var u := s.(registered := s.registered + 1, called := s.called + [s.registered]);
    assert forall h: Handler, o: Origin :: Waits(u, h, o) == Waits(s, h, o);
    DistinctNext(s.called, s.registered);
    hide WireFits;
    forall h: Handler | h < u.registered && h !in u.called
      ensures exists o :: Waits(u, h, o)
    {
      var o :| Waits(s, h, o);
      assert Waits(u, h, o);
    }
  }

  ghost predicate IsRun(states: seq<State>, events: seq<Event>) {
    && |states| == |events| + 1
    && states[0] == INITIAL
    && forall i :: 0 <= i < |events| ==> Possible(states[i], events[i]) && states[i + 1] == Step(states[i], events[i])
  }

  lemma {:induction false} RunKeeps(states: seq<State>, events: seq<Event>, n: nat)
    requires IsRun(states, events) && n < |states|
    ensures Inv(states[n])
  {
    if n > 0 {
      hide Step, Inv, Possible;
      RunKeeps(states, events, n - 1);
      StepKeeps(states[n - 1], events[n - 1]);
    }
  }

  /**
    In every run: no Assert fails; an origin is in the table exactly if a request for it is in flight, and then only one
    is; no handler is called twice, and one that was not called waits for the request of one origin.
   */
  lemma EveryHandlerOnce(states: seq<State>, events: seq<Event>, n: nat)
    requires IsRun(states, events) && n < |states|
    ensures var s := states[n];
            && !s.crashed && Distinct(s.called)
            && (forall o :: o in s.handlers <==> Asked(s.wire, o))
            && (forall i, j :: i in s.wire && j in s.wire && s.wire[i] == s.wire[j] ==> i == j)
            && (forall h: Handler :: h < s.registered ==> (h !in s.called <==> exists o :: Waits(s, h, o)))
            && (forall h: Handler, o: Origin, p: Origin :: Waits(s, h, o) && Waits(s, h, p) ==> o == p)
            && (forall o :: o in s.handlers ==> Distinct(s.handlers[o]))
  {
    RunKeeps(states, events, n);
    var s := states[n];
    hide IsRun;
  }

  /**
    In every run a handler that asks for an origin joins those that wait for it, at the end, and a request goes out
    exactly if none waited; the additional handler joins only a list just started. One that cannot be asked for is told
    at once.
   */
  lemma HandlersJoin(states: seq<State>, events: seq<Event>, n: nat)
    requires IsRun(states, events) && n < |events| && events[n].Refreshed?
    ensures var s, u, o, h := states[n], states[n + 1], events[n].origin, states[n].registered;
            if !events[n].askable then
              u.called == s.called + [h] && u.registered == h + 1 && u.handlers == s.handlers && u.wire == s.wire
            else
              var joining := if events[n].additional && o !in s.handlers then [h, h + 1] else [h];
              && u.called == s.called && u.registered == h + |joining|
              && u.handlers == s.handlers[o := Waiting(s, o) + joining]
              && Asked(u.wire, o)
              && (if o in s.handlers then u.wire == s.wire
                  else u.wire.Keys == s.wire.Keys + {u.lastId} && u.lastId > s.lastId)
  {
    RunKeeps(states, events, n);
    var s, u, e := states[n], states[n + 1], events[n];
    assert u == Refresh(s, e.origin, e.askable, e.additional);
    hide IsRun, HandlersFit;
    if e.askable && e.origin !in s.handlers {
      assert u.wire[s.lastId + 1] == e.origin;
      assert [] + [s.registered] == [s.registered];
      assert [] + [s.registered, s.registered + 1] == [s.registered, s.registered + 1];
      assert [s.registered] + [s.registered + 1] == [s.registered, s.registered + 1];
    }
  }

  /**
    In every run an answer calls exactly the handlers that wait for its origin, none of them called before, in the order
    they asked; those of other origins wait on.
   */
  lemma AnswerCalls(states: seq<State>, events: seq<Event>, n: nat)
    requires IsRun(states, events) && n < |events| && events[n].Answered?
    ensures var s, u := states[n], states[n + 1];
            var origin := s.wire[events[n].id];
            && origin in s.handlers && u.called == s.called + s.handlers[origin]
            && u.handlers == s.handlers - {origin} && u.wire == s.wire - {events[n].id}
            && (forall h: Handler :: h in u.called && h !in s.called <==> Waits(s, h, origin))
            && (forall h: Handler, o: Origin :: Waits(u, h, o) <==> Waits(s, h, o) && o != origin)
            && forall id: nat :: id in u.wire ==> u.wire[id] != origin
  {
    RunKeeps(states, events, n);
    var s, u := states[n], states[n + 1];
    assert u == Answer(s, events[n].id);
    hide IsRun, Step, Possible;
    var origin := s.wire[events[n].id];
    assert forall h :: h in s.handlers[origin] <==> Waits(s, h, origin);
  }

  /** Once nothing is in flight every handler was called. */
  lemma QuietMeansCalled(states: seq<State>, events: seq<Event>, n: nat, h: Handler)
    requires IsRun(states, events) && n < |states| && states[n].wire == map[] && h < states[n].registered
    ensures h in states[n].called
  {
    var s := states[n];
    EveryHandlerOnce(states, events, n);
    hide IsRun;
    assert forall o :: o !in s.handlers;
    assert forall o :: !Waits(s, h, o);
  }

  // ---------- the object ----------

  /** ApiWrap, as far as file references go. */
  class FileReferenceRequests {
    var fileReferenceHandlers: map<Origin, seq<Handler>>
    var wire: map<nat, Origin>
    var lastId: nat
    var registered: nat
    var called: seq<Handler>
    var crashed: bool

    function Abs(): State
      reads this
    {
      State(fileReferenceHandlers, wire, lastId, registered, called, crashed)
    }

    constructor ()
      ensures Abs() == INITIAL
    {
      fileReferenceHandlers, wire, lastId, registered, called, crashed := map[], map[], 0, 0, [], false;
    }

    method RequestFileReference(origin: Origin)
      modifies this
      ensures Abs() == Request(old(Abs()), origin)
    {
      var handler := registered;
      registered := registered + 1;
      if origin in fileReferenceHandlers {
        fileReferenceHandlers := fileReferenceHandlers[origin := fileReferenceHandlers[origin] + [handler]];
        return;
      }
      fileReferenceHandlers := fileReferenceHandlers[origin := [handler]];
      lastId := lastId + 1;
      wire := wire[lastId := origin];
    }

    method RefreshFileReference(origin: Origin, askable: bool, additional: bool)
      modifies this
      ensures Abs() == Refresh(old(Abs()), origin, askable, additional)
    {
      if !askable {
        called := called + [registered];
        registered := registered + 1;
        return;
      }
      RequestFileReference(origin);
      if additional {
        if origin !in fileReferenceHandlers {
          crashed := true;
        } else if |fileReferenceHandlers[origin]| == 1 {
          fileReferenceHandlers := fileReferenceHandlers[origin := fileReferenceHandlers[origin] + [registered]];
          registered := registered + 1;
        }
      }
    }

    method OnAnswer(id: nat)
      requires id in wire
      modifies this
      ensures Abs() == Answer(old(Abs()), id)
    {
      var origin := wire[id];
      wire := wire - {id};
      if origin !in fileReferenceHandlers {
        crashed := true;
        return;
      }
      var handlers := fileReferenceHandlers[origin];
      fileReferenceHandlers := fileReferenceHandlers - {origin};
      ghost var taken := Abs();
      for i := 0 to |handlers|
        invariant called == old(called) + handlers[..i]
        invariant Abs() == taken.(called := called)
      {
        called := called + [handlers[i]];
      }
      assert handlers[..|handlers|] == handlers;
    }
  }
}
