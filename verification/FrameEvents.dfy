/**
  Event delivery from the web app shell to its frame (bot_webview_shell_html/page.js):
  frames come in generations, events posted while the frame is not loaded wait in a buffer
  of at most 64, and a load flushes the buffer.
 */
module FrameEvents {

  type Message = string

  const MAX_PENDING: nat := 64

  /** An event and the generation it was posted in. */
  datatype Event = Event(generation: nat, message: Message)

  /** Event number id handed to the frame of a generation. */
  datatype Delivery = Delivery(generation: nat, id: nat)

  /**
    The shell. `posts` is everything ever posted; pending and delivered events are numbers of posts;
    `since` is the number of posts when the frame last stopped being loaded.
   */
  datatype State = State(
    hasFrame: bool, loaded: bool, generation: nat, reachable: bool, pending: seq<nat>,
    posts: seq<Event>, delivered: seq<Delivery>, since: nat)

  const INITIAL := State(false, false, 0, true, [], [], [], 0)

  // ---------- what each function does ----------

  /** sendToFrame: the event is dropped when the frame is gone, of another generation or has no usable origin. */
  function Send(s: State, id: nat, generation: nat): State {
    if !s.hasFrame || generation != s.generation || !s.reachable then s
    else s.(delivered := s.delivered + [Delivery(generation, id)])
  }

  /** push, then shift while there are too many. */
  function Bounded(pending: seq<nat>): (r: seq<nat>)
    ensures |r| <= MAX_PENDING
    ensures r == if |pending| <= MAX_PENDING then pending else pending[|pending| - MAX_PENDING..]
    decreases |pending|
  {
    if |pending| <= MAX_PENDING then pending else Bounded(pending[1..])
  }

  function Post(s: State, message: Message): State {
    var id := |s.posts|;
    var t := s.(posts := s.posts + [Event(s.generation, message)]);
    if !s.hasFrame || !s.loaded then t.(pending := Bounded(s.pending + [id])) else Send(t, id, s.generation)
  }

  function Flush(s: State, list: seq<nat>): State
    requires forall i :: 0 <= i < |list| ==> list[i] < |s.posts|
    ensures Flush(s, list).posts == s.posts && Flush(s, list).generation == s.generation
    decreases |list|
  {
    if |list| == 0 then s
    else
      var before := Flush(s, list[..|list| - 1]);
      var id := list[|list| - 1];
      if s.posts[id].generation == before.generation then Send(before, id, s.posts[id].generation) else before
  }

  /** The load handler of the frame created in some generation. */
  function Load(s: State, generation: nat): State
    requires forall i :: 0 <= i < |s.pending| ==> s.pending[i] < |s.posts|
  {
    if !s.hasFrame || generation != s.generation then s
    else Flush(s.(loaded := true, pending := []), s.pending)
  }

  function WillReload(s: State): State {
    if !s.hasFrame then s else s.(loaded := false, since := if s.loaded then |s.posts| else s.since)
  }

  function Create(s: State, reachable: bool): State {
    State(true, false, s.generation + 1, reachable, [], s.posts, s.delivered, |s.posts|)
  }

  datatype Action = PostEvent(message: Message) | FrameLoads(generation: nat) | FrameWillReload
        | CreateFrame(reachable: bool)

  predicate PendingKnown(s: State) { forall i :: 0 <= i < |s.pending| ==> s.pending[i] < |s.posts| }

  function Step(s: State, a: Action): State
    requires PendingKnown(s)
  {
    match a
    case PostEvent(m) => Post(s, m)
    case FrameLoads(g) => Load(s, g)
    case FrameWillReload => WillReload(s)
    case CreateFrame(reachable) => Create(s, reachable)
  }

  // ---------- what every run keeps ----------

  function Range(from: nat, to: nat): (r: seq<nat>)
    requires from <= to
    ensures |r| == to - from
  {
    seq(to - from, i => from + i)
  }

  function Max(a: int, b: int): int { if a < b then b else a }

  /** The newest 64 of the posts made since the frame last stopped being loaded, or was created. */
  function Newest(s: State): (r: seq<nat>)
    requires s.since <= |s.posts|
  {
    Range(Max(s.since, |s.posts| - MAX_PENDING), |s.posts|)
  }

  ghost predicate Increasing(s: seq<Delivery>) {
    forall i, j :: 0 <= i < j < |s| ==> s[i].id < s[j].id
  }

  /** Deliveries are in posting order, none twice, each to the generation it was posted in. */
  ghost predicate DeliveredInOrder(s: State) {
    && Increasing(s.delivered)
    && (forall i :: 0 <= i < |s.delivered| ==>
          s.delivered[i].id < |s.posts| && s.posts[s.delivered[i].id].generation == s.delivered[i].generation)
  }

  ghost predicate Inv(s: State) {
    && s.since <= |s.posts|
    && DeliveredInOrder(s)
    && (s.loaded ==> s.hasFrame && s.pending == [])
    && (!s.loaded ==> s.pending == Newest(s))
    && (!s.loaded ==> forall i :: s.since <= i < |s.posts| ==> s.posts[i].generation == s.generation)
    && (!s.loaded ==> forall i :: 0 <= i < |s.delivered| ==> s.delivered[i].id < s.since)
    && (forall i :: 0 <= i < |s.posts| ==> s.posts[i].generation <= s.generation)
    && (s.hasFrame <==> s.generation > 0)
  }

  lemma PendingIsKnown(s: State)
    requires Inv(s)
    ensures PendingKnown(s)
  {
  }

  lemma BufferKeepsNewest(s: State)
    requires Inv(s) && !s.loaded
    ensures Bounded(s.pending + [|s.posts|]) == Range(Max(s.since, |s.posts| + 1 - MAX_PENDING), |s.posts| + 1)
  {
  }

  lemma PostKeeps(s: State, message: Message)
    requires Inv(s)
    ensures Inv(Post(s, message))
  {
    if !s.loaded {
      BufferKeepsNewest(s);
    }
  }

  function Deliveries(generation: nat, list: seq<nat>): (r: seq<Delivery>)
    ensures |r| == |list|
  {
    seq(|list|, i requires 0 <= i < |list| => Delivery(generation, list[i]))
  }

  /** Flushing events of the current generation hands over all of them, or none to an unreachable frame. */
  lemma {:induction false} FlushDelivers(s: State, list: seq<nat>)
    requires s.hasFrame
    requires forall i :: 0 <= i < |list| ==> list[i] < |s.posts| && s.posts[list[i]].generation == s.generation
    ensures Flush(s, list) == if s.reachable then s.(delivered := s.delivered + Deliveries(s.generation, list)) else s
    decreases |list|
  {
    if |list| > 0 {
      var n := |list| - 1;
      FlushDelivers(s, list[..n]);
      assert Deliveries(s.generation, list) == Deliveries(s.generation, list[..n]) + [Delivery(s.generation, list[n])];
    } else {
      assert s.delivered + Deliveries(s.generation, list) == s.delivered;
    }
  }

  /** What a load of the current frame does: exactly the newest 64 waiting posts arrive, in order. */
  lemma LoadDelivers(s: State)
    requires Inv(s) && s.hasFrame && !s.loaded
    ensures PendingKnown(s)
    ensures Load(s, s.generation)
         == s.(loaded := true, pending := [],
               delivered := if s.reachable then s.delivered + Deliveries(s.generation, Newest(s)) else s.delivered)
  {
    FlushDelivers(s.(loaded := true, pending := []), s.pending);
  }

  lemma LoadKeeps(s: State, generation: nat)
    requires Inv(s) && PendingKnown(s)
    ensures Inv(Load(s, generation))
  {
    if s.hasFrame && generation == s.generation {
      if s.loaded {
        assert s.pending == [];
      } else {
        LoadDelivers(s);
      }
    }
  }

  lemma StepKeeps(s: State, a: Action)
    requires Inv(s)
    ensures PendingKnown(s) && Inv(Step(s, a))
  {
    PendingIsKnown(s);
    match a
    case PostEvent(m) => PostKeeps(s, m);
    case FrameLoads(g) => LoadKeeps(s, g);
    case FrameWillReload =>
    case CreateFrame(reachable) =>
  }

  ghost predicate IsRun(states: seq<State>, actions: seq<Action>) {
    && |states| == |actions| + 1
    && states[0] == INITIAL
    && forall i :: 0 <= i < |actions| ==> PendingKnown(states[i]) && states[i + 1] == Step(states[i], actions[i])
  }

  lemma {:induction false} RunKeeps(states: seq<State>, actions: seq<Action>, n: nat)
    requires IsRun(states, actions) && n < |states|
    ensures Inv(states[n])
  {
    if n > 0 {
      RunKeeps(states, actions, n - 1);
      StepKeeps(states[n - 1], actions[n - 1]);
    }
  }

  /**
    In every run: each delivered event was posted in the generation that received it, deliveries follow the order of
    the posts and repeat none; a loaded frame leaves nothing waiting; and what waits is exactly the newest 64 of the
    events posted since the frame last stopped being loaded, or was created.
   */
  lemma DeliveryInEveryRun(states: seq<State>, actions: seq<Action>, n: nat)
    requires IsRun(states, actions) && n < |states|
    ensures var s := states[n];
            && DeliveredInOrder(s)
            && (s.loaded ==> s.pending == [])
            && (!s.loaded ==> s.since <= |s.posts| && s.pending == Newest(s))
            && |s.pending| <= MAX_PENDING
  {
    RunKeeps(states, actions, n);
  }

  // ---------- what becomes of every event ----------

  /** What each action does to the frame, and that a post is remembered as it was made. */
  lemma ActionsAct(states: seq<State>, actions: seq<Action>, n: nat)
    requires IsRun(states, actions) && n < |actions|
    ensures var s, u := states[n], states[n + 1];
            match actions[n]
            case PostEvent(m) =>
              && u.posts == s.posts + [Event(s.generation, m)]
              && u.loaded == s.loaded && u.generation == s.generation && u.reachable == s.reachable
            case FrameLoads(g) =>
              if !s.hasFrame || g != s.generation then u == s
              else u.loaded && u.posts == s.posts && u.generation == g && u.reachable == s.reachable
            case FrameWillReload =>
              && !u.loaded && u.generation == s.generation && u.reachable == s.reachable
              && u.posts == s.posts && u.delivered == s.delivered && u.pending == s.pending
            case CreateFrame(reachable) =>
              && u.hasFrame && !u.loaded && u.generation == s.generation + 1 && u.reachable == reachable
              && u.posts == s.posts && u.delivered == s.delivered && u.pending == []
  {
    RunKeeps(states, actions, n);
    if actions[n].FrameLoads? && !states[n].loaded && states[n].hasFrame { LoadDelivers(states[n]); }
  }

  ghost predicate Got(s: State, id: nat) { exists i :: 0 <= i < |s.delivered| && s.delivered[i].id == id }

  /** More than 64 events posted in the state's generation, the frame not being loaded, came after this one. */
  ghost predicate PushedOutAt(s: State, id: nat, generation: nat) {
    s.generation == generation && !s.loaded && s.since <= id && id + MAX_PENDING < |s.posts|
  }

  ghost predicate PushedOut(states: seq<State>, n: nat, id: nat)
    requires n < |states|
  {
    exists m :: 0 <= m <= n && PushedOutAt(states[m], id, states[n].generation)
  }

  ghost predicate Delivers(s: State, u: State, list: seq<nat>) {
    u.delivered == s.delivered + Deliveries(s.generation, list)
  }

  lemma GotGrows(s: State, u: State, list: seq<nat>, id: nat)
    requires Delivers(s, u, list)
    ensures Got(u, id) <==> Got(s, id) || id in list
  {
    if Got(s, id) {
      var i :| 0 <= i < |s.delivered| && s.delivered[i].id == id;
      assert u.delivered[i].id == id;
    }
    if id in list {
      var i :| 0 <= i < |list| && list[i] == id;
      assert u.delivered[|s.delivered| + i].id == id;
    }
  }

  /** What a step hands over to a reachable frame. */
  function Handed(s: State, a: Action): seq<nat>
    requires s.since <= |s.posts|
  {
    match a
    case PostEvent(_) => if s.loaded then [|s.posts|] else []
    case FrameLoads(g) => if s.hasFrame && g == s.generation && !s.loaded then Newest(s) else []
    case _ => []
  }

  lemma StepHands(s: State, a: Action)
    requires Inv(s) && PendingKnown(s) && s.reachable
    ensures Delivers(s, Step(s, a), Handed(s, a))
  {
    assert s.delivered + Deliveries(s.generation, []) == s.delivered;
    match a
    case PostEvent(_) => assert Deliveries(s.generation, [|s.posts|]) == [Delivery(s.generation, |s.posts|)];
    case FrameLoads(g) => if !s.loaded && s.hasFrame { LoadDelivers(s); }
    case _ =>
  }

  lemma PushedOutNext(states: seq<State>, n: nat, id: nat)
    requires 0 < n < |states| && states[n].generation == states[n - 1].generation
    ensures PushedOut(states, n, id)
            <==> PushedOut(states, n - 1, id) || PushedOutAt(states[n], id, states[n].generation)
  {
    if PushedOut(states, n - 1, id) {
      var m :| 0 <= m <= n - 1 && PushedOutAt(states[m], id, states[n - 1].generation);
      assert PushedOutAt(states[m], id, states[n].generation);
    }
  }

  lemma {:induction false} GenerationsGrow(states: seq<State>, actions: seq<Action>, m: nat, n: nat)
    requires IsRun(states, actions) && m <= n < |states|
    ensures |states[m].posts| <= |states[n].posts| && states[m].generation <= states[n].generation
  {
    if m < n {
      GenerationsGrow(states, actions, m, n - 1);
      RunKeeps(states, actions, n - 1);
      ActionsAct(states, actions, n - 1);
      hide Step, Inv;
    }
  }

  lemma PushedOutIsOld(states: seq<State>, actions: seq<Action>, n: nat, id: nat)
    requires IsRun(states, actions) && n < |states| && PushedOut(states, n, id)
    ensures id + MAX_PENDING < |states[n].posts|
  {
    var m :| 0 <= m <= n && PushedOutAt(states[m], id, states[n].generation);
    GenerationsGrow(states, actions, m, n);
  }

  /** An event posted in the frame's generation, and what became of it. */
  ghost predicate Fate(states: seq<State>, n: nat, id: nat)
    requires n < |states|
  {
    && (Got(states[n], id) <==> id !in states[n].pending && !PushedOut(states, n, id))
    && (id in states[n].pending ==> !PushedOut(states, n, id))
  }

  lemma PendingHas(s: State, id: nat)
    requires Inv(s)
    ensures id in s.pending <==> !s.loaded && s.since <= id < |s.posts| && |s.posts| <= id + MAX_PENDING
  {
    if !s.loaded && s.since <= id < |s.posts| && |s.posts| <= id + MAX_PENDING {
      var from := Max(s.since, |s.posts| - MAX_PENDING);
      assert Newest(s)[id - from] == id;
    }
  }

  lemma GotIsOld(s: State, id: nat)
    requires Inv(s) && Got(s, id)
    ensures id < |s.posts| && (!s.loaded ==> id < s.since)
  {
  }

  lemma NewFate(states: seq<State>, actions: seq<Action>, n: nat)
    requires IsRun(states, actions) && n < |actions| && actions[n].PostEvent? && states[n].reachable
    ensures Fate(states, n + 1, |states[n].posts|)
  {
    var s, u, id := states[n], states[n + 1], |states[n].posts|;
    RunKeeps(states, actions, n);
    RunKeeps(states, actions, n + 1);
    ActionsAct(states, actions, n);
    StepHands(s, actions[n]);
    assert u == Step(s, actions[n]);
    GotGrows(s, u, Handed(s, actions[n]), id);
    PendingHas(u, id);
    if PushedOut(states, n + 1, id) { PushedOutIsOld(states, actions, n + 1, id); }
    if Got(s, id) { GotIsOld(s, id); }
    assert s.since <= id && u.since == s.since;
    hide Step, IsRun, Inv, Got, PushedOut;
  }

  lemma OldFate(states: seq<State>, actions: seq<Action>, n: nat, id: nat)
    requires IsRun(states, actions) && n < |actions| && states[n].reachable
    requires states[n + 1].generation == states[n].generation && id < |states[n].posts| && Fate(states, n, id)
    ensures Fate(states, n + 1, id)
  {
    var s, u, a := states[n], states[n + 1], actions[n];
    RunKeeps(states, actions, n);
    RunKeeps(states, actions, n + 1);
    ActionsAct(states, actions, n);
    StepHands(s, a);
    assert u == Step(s, a);
    GotGrows(s, u, Handed(s, a), id);
    PendingHas(s, id);
    PendingHas(u, id);
    PushedOutNext(states, n + 1, id);
    if PushedOut(states, n, id) { PushedOutIsOld(states, actions, n, id); }
    if Got(s, id) { GotIsOld(s, id); }
    assert !s.loaded ==> s.pending == Newest(s);
    assert !u.loaded && !s.loaded ==> u.since == s.since;
    assert !u.loaded && s.loaded ==> u.since == |s.posts| == |u.posts|;
    hide Step, IsRun, Inv, Got, PushedOut, Newest;
  }

  lemma OldGenerations(s: State)
    requires Inv(s)
    ensures forall i :: 0 <= i < |s.posts| ==> s.posts[i].generation <= s.generation
  {
  }

  /** An event of the frame's generation was there one step before, in the same generation, or was just posted. */
  lemma BeforeThat(states: seq<State>, actions: seq<Action>, n: nat, id: nat)
    requires IsRun(states, actions) && n < |actions| && states[n + 1].reachable && id < |states[n + 1].posts|
    requires states[n + 1].posts[id].generation == states[n + 1].generation
    ensures states[n].reachable
    ensures if id < |states[n].posts| then
              && states[n + 1].generation == states[n].generation && states[n].posts[id] == states[n + 1].posts[id]
            else actions[n].PostEvent? && id == |states[n].posts|
  {
    RunKeeps(states, actions, n);
    ActionsAct(states, actions, n);
    hide IsRun, Step;
    OldGenerations(states[n]);
    hide Inv;
  }

  /**
    In every run, of the events posted to a frame that can be reached, since it was created: each was delivered, or
    waits, or was pushed out by more than 64 waiting ones, and only one of these.
   */
  lemma {:induction false} EveryEventCounts(states: seq<State>, actions: seq<Action>, n: nat, id: nat)
    requires IsRun(states, actions) && n < |states| && id < |states[n].posts| && states[n].reachable
    requires states[n].posts[id].generation == states[n].generation
    ensures Fate(states, n, id)
  {
    assert n > 0;
    hide *;
    BeforeThat(states, actions, n - 1, id);
    if id < |states[n - 1].posts| {
      EveryEventCounts(states, actions, n - 1, id);
      OldFate(states, actions, n - 1, id);
    } else {
      NewFate(states, actions, n - 1);
    }
  }

  /** Nothing is delivered to a frame that cannot be reached. */
  lemma {:induction false} UnreachableGetsNothing(states: seq<State>, actions: seq<Action>, n: nat, i: nat)
    requires IsRun(states, actions) && n < |states| && !states[n].reachable && i < |states[n].delivered|
    ensures states[n].delivered[i].generation != states[n].generation
  {
    if n > 0 {
      var s, u := states[n - 1], states[n];
      RunKeeps(states, actions, n - 1);
      assert u == Step(s, actions[n - 1]);
      if actions[n - 1].CreateFrame? {
        assert s.delivered[i].generation <= s.generation;
      } else {
        UnreachableStep(s, actions[n - 1]);
        hide Step;
        UnreachableGetsNothing(states, actions, n - 1, i);
      }
    }
  }

  lemma UnreachableStep(s: State, a: Action)
    requires Inv(s) && PendingKnown(s) && !a.CreateFrame? && !Step(s, a).reachable
    ensures !s.reachable && Step(s, a).delivered == s.delivered && Step(s, a).generation == s.generation
  {
    if a.FrameLoads? && s.hasFrame && !s.loaded { LoadDelivers(s); }
  }

  // ---------- the class ----------

  class Shell {
    /** The frame element, named by the generation it was created in; 0 is no frame. */
    var iframe: nat
    var frameLoaded: bool
    var frameOrigin: string
    var sameOrigin: bool
    var frameGeneration: nat
    var pendingEvents: seq<Event>
    /** The postMessage calls: the generation of the receiving frame and the message. */
    var received: seq<Event>

    ghost var pendingIds: seq<nat>
    ghost var posts: seq<Event>
    ghost var delivered: seq<Delivery>
    ghost var since: nat

    ghost predicate Valid()
      reads this
    {
      && (iframe == 0 || iframe == frameGeneration)
      && |pendingIds| == |pendingEvents|
      && (forall i :: 0 <= i < |pendingIds| ==> pendingIds[i] < |posts| && pendingEvents[i] == posts[pendingIds[i]])
      && |received| == |delivered|
      && (forall i :: 0 <= i < |delivered| ==>
            delivered[i].id < |posts|
            && received[i] == Event(delivered[i].generation, posts[delivered[i].id].message))
    }

    ghost function Abs(): State
      reads this
    {
      State(iframe != 0, frameLoaded, frameGeneration, !(sameOrigin
          && frameOrigin == ""), pendingIds, posts, delivered, since)
    }

    constructor ()
      ensures Valid() && Abs() == INITIAL
    {
      iframe, frameLoaded, frameOrigin, sameOrigin, frameGeneration := 0, false, "", false, 0;
      pendingEvents, received := [], [];
      pendingIds, posts, delivered, since := [], [], [], 0;
    }

    method SendToFrame(message: Message, generation: nat, ghost id: nat)
      requires Valid() && id < |posts| && posts[id].message == message
      modifies this`received, this`delivered
      ensures Valid() && Abs() == Send(old(Abs()), id, generation)
    {
      if iframe == 0 || generation != frameGeneration {
        return;
      }
      if sameOrigin && frameOrigin == "" {
        return;
      }
      received := received + [Event(iframe, message)];
      delivered := delivered + [Delivery(generation, id)];
    }

    method PostToFrame(message: Message)
      requires Valid()
      modifies this
      ensures Valid() && Abs() == Post(old(Abs()), message)
    {
      var generation := frameGeneration;
      ghost var id := |posts|;
      posts := posts + [Event(generation, message)];
      if iframe == 0 || !frameLoaded {
        pendingEvents := pendingEvents + [Event(generation, message)];
        pendingIds := pendingIds + [id];
        DropOldest();
        return;
      }
      SendToFrame(message, generation, id);
    }

    /** while (pendingEvents.length > maxPendingEvents) pendingEvents.shift(); */
    method DropOldest()
      requires Valid()
      modifies this`pendingEvents, this`pendingIds
      ensures Valid() && pendingIds == Bounded(old(pendingIds))
    {
      while |pendingEvents| > MAX_PENDING
        invariant Valid() && Bounded(pendingIds) == Bounded(old(pendingIds))
      {
        pendingEvents := pendingEvents[1..];
        pendingIds := pendingIds[1..];
      }
    }

    method FlushPendingEvents()
      requires Valid()
      modifies this`pendingEvents, this`pendingIds, this`received, this`delivered
      ensures Valid() && Abs() == Flush(old(Abs()).(pending := []), old(Abs()).pending)
    {
      var pending := pendingEvents;
      ghost var ids := pendingIds;
      pendingEvents, pendingIds := [], [];
      ghost var start := Abs();
      var i := 0;
      while i < |pending|
        invariant i <= |pending| && Valid()
        invariant Abs() == Flush(start, ids[..i])
        invariant posts == old(posts) && frameGeneration == old(frameGeneration)
      {
        assert ids[..i + 1][..i] == ids[..i];
        if pending[i].generation == frameGeneration {
          SendToFrame(pending[i].message, pending[i].generation, ids[i]);
        }
        i := i + 1;
      }
      assert ids[..i] == ids;
    }

    /** The load event of the frame created in `generation`. */
    method OnLoad(generation: nat)
      requires Valid()
      modifies this
      ensures Valid() && Abs() == Load(old(Abs()), generation)
    {
      if iframe == 0 || iframe != generation || generation != frameGeneration {
        return;
      }
      frameLoaded := true;
      FlushPendingEvents();
    }

    /** The iframe_will_reload message of the current frame. */
    method OnWillReload()
      requires Valid()
      modifies this
      ensures Valid() && Abs() == WillReload(old(Abs()))
    {
      if iframe == 0 {
        return;
      }
      since := if frameLoaded then |posts| else since;
      frameLoaded := false;
    }

    method CreateIframe()
      requires Valid()
      modifies this
      ensures Valid() && Abs() == Create(old(Abs()), !(sameOrigin && frameOrigin == ""))
      ensures sameOrigin == old(sameOrigin) && frameOrigin == old(frameOrigin)
    {
      frameGeneration := frameGeneration + 1;
      pendingEvents, pendingIds := [], [];
      frameLoaded := false;
      since := |posts|;
      iframe := frameGeneration;
    }

    /** The native bootstrap call: the origin mode is chosen anew and a frame is created. */
    method Bootstrap(sameOriginMode: bool, origin: string)
      requires Valid()
      modifies this
      ensures Valid() && Abs() == Create(old(Abs()), !(sameOriginMode && origin == ""))
    {
      sameOrigin := sameOriginMode;
      frameOrigin := if sameOrigin then origin else "";
      CreateIframe();
    }
  }
}
