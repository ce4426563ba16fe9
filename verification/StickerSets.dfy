/**
  Saving the installed sticker sets (apiwrap.cpp, data/stickers/data_stickers.h): sets taken out are uninstalled and
  mostly forgotten, the installed flags and the order are rebuilt from the new order, sets nothing holds are purged,
  and the new order is sent once every request to install or uninstall was answered.

  A set's id is its key; what a set is asked by (its access hash) is not modelled, nor which files are written.
 */
module StickerSets {
  type Id = nat
  type Doc = nat

  const CLOUD_RECENT: Id := 0xFFFF_FFFF_FFFF_FFFC
  const CLOUD_RECENT_ATTACHED: Id := 0xFFFF_FFFF_FFFF_FFF9
  const CUSTOM: Id := 0xFFFF_FFFF_FFFF_FFFF

  datatype Kind = Stickers | Masks | Emoji

  /** The flags of a set that matter here. */
  datatype Flags = Flags(installed: bool, archived: bool, featured: bool, special: bool, masks: bool, emoji: bool)

  datatype StickersSet = StickersSet(flags: Flags, locked: int, installDate: nat, stickers: set<Doc>)

  datatype Request = Uninstall(id: Id) | Install(id: Id) | ClearRecent(attached: bool)

  /** What the loops work on: the sets, the recent stickers, the order, and the requests sent. */
  datatype Work = Work(sets: map<Id, StickersSet>, recent: seq<Doc>, order: seq<Id>, sent: seq<Request>)

  function KindOf(s: StickersSet): Kind {
    if s.flags.emoji then Emoji else if s.flags.masks then Masks else Stickers
  }

  predicate IsCloudRecent(id: Id) { id == CLOUD_RECENT || id == CLOUD_RECENT_ATTACHED }

  function WithoutDocs(recent: seq<Doc>, docs: set<Doc>): seq<Doc> {
    if |recent| == 0 then []
    else WithoutDocs(recent[..|recent| - 1], docs)
         + if recent[|recent| - 1] in docs then [] else [recent[|recent| - 1]]
  }

  /** A removed set is kept, without its flags, when something else still shows it. */
  predicate Shown(s: StickersSet) { s.flags.featured || s.flags.special || s.flags.emoji || s.locked > 0 }

  function Uninstalled(s: StickersSet): StickersSet {
    s.(flags := s.flags.(installed := false, archived := false), installDate := 0)
  }

  function RemoveOne(w: Work, id: Id): Work {
    if IsCloudRecent(id)
    then w.(sets := w.sets - {CLOUD_RECENT, CLOUD_RECENT_ATTACHED, CUSTOM}, recent := [],
            sent := w.sent + [ClearRecent(id == CLOUD_RECENT_ATTACHED)])
    else if id !in w.sets then w
    else
      var s := w.sets[id];
      var recent := WithoutDocs(w.recent, s.stickers);
      if s.flags.archived then w.(recent := recent)
      else w.(sets := if Shown(s) then w.sets[id := Uninstalled(s)] else w.sets - {id}, recent := recent,
              sent := w.sent + [Uninstall(id)])
  }

  function RemoveAll(w: Work, removed: seq<Id>): Work {
    if |removed| == 0 then w else RemoveOne(RemoveAll(w, removed[..|removed| - 1]), removed[|removed| - 1])
  }

  /** A set of the type loses its installed flag unless it is archived. */
  function Clear(s: StickersSet, kind: Kind): StickersSet {
    if !s.flags.archived && KindOf(s) == kind then s.(flags := s.flags.(installed := false)) else s
  }

  function ClearAll(sets: map<Id, StickersSet>, kind: Kind): map<Id, StickersSet> {
    map id | id in sets :: Clear(sets[id], kind)
  }

  function Installed(s: StickersSet, unarchive: bool, now: nat): StickersSet {
    s.(flags := s.flags.(installed := true, archived := s.flags.archived && !unarchive),
       installDate := if s.installDate == 0 then now else s.installDate)
  }

  function PlaceOne(w: Work, id: Id, removed: seq<Id>, now: nat): Work {
    if id !in w.sets then w
    else
      var s := w.sets[id];
      w.(sets := w.sets[id := Installed(s, id !in removed, now)], order := w.order + [id],
         sent := if s.flags.archived && id !in removed then w.sent + [Install(id)] else w.sent)
  }

  function PlaceAll(w: Work, order: seq<Id>, removed: seq<Id>, now: nat): Work {
    if |order| == 0 then w else PlaceOne(PlaceAll(w, order[..|order| - 1], removed, now), order[|order| - 1], removed,
        now)
  }

  /** Something holds the set. */
  predicate Stays(s: StickersSet) {
    s.flags.featured || s.flags.installed || s.flags.archived || s.flags.special || s.flags.emoji || s.locked > 0
  }

  function Purge(sets: map<Id, StickersSet>): map<Id, StickersSet> {
    map id | id in sets && Stays(sets[id]) :: sets[id]
  }

  /** The sets just before the order is rebuilt. */
  function Removed(w: Work, removed: seq<Id>, kind: Kind): Work {
    var r := RemoveAll(w, removed);
    r.(sets := ClearAll(r.sets, kind), order := [])
  }

  /** saveStickerSets, up to sending the order. */
  function Save(w: Work, order: seq<Id>, removed: seq<Id>, kind: Kind, now: nat): Work {
    var p := PlaceAll(Removed(w, removed, kind), order, removed, now);
    p.(sets := Purge(p.sets))
  }

  // ---------- what the call leaves ----------

  /** The ids that are keys, in order. */
  function Restrict(order: seq<Id>, keys: set<Id>): seq<Id> {
    if |order| == 0 then []
    else Restrict(order[..|order| - 1], keys) + if order[|order| - 1] in keys then [order[|order| - 1]] else []
  }

  lemma {:induction false} RestrictHas(order: seq<Id>, keys: set<Id>)
    ensures forall id :: id in Restrict(order, keys) <==> id in order && id in keys
  {
    if |order| > 0 {
      assert order == order[..|order| - 1] + [order[|order| - 1]];
      RestrictHas(order[..|order| - 1], keys);
    }
  }

  /** Only whether the ids of the order are keys matters. */
  lemma {:induction false} RestrictAgrees(order: seq<Id>, keys: set<Id>, other: set<Id>)
    requires forall id :: id in order ==> (id in keys <==> id in other)
    ensures Restrict(order, keys) == Restrict(order, other)
  {
    if |order| > 0 {
      assert forall id :: id in order[..|order| - 1] ==> id in order;
      RestrictAgrees(order[..|order| - 1], keys, other);
    }
  }

  /** What placing does to one set. */
  ghost predicate PlacedFrom(s: StickersSet, u: StickersSet, ordered: bool, isRemoved: bool, now: nat) {
    if ordered then
      && u.flags == s.flags.(installed := true, archived := s.flags.archived && isRemoved)
      && u.locked == s.locked && u.stickers == s.stickers
      && u.installDate == (if s.installDate == 0 then now else s.installDate)
    else u == s
  }

  lemma {:induction false} PlaceAllFacts(w: Work, order: seq<Id>, removed: seq<Id>, now: nat)
    ensures var u := PlaceAll(w, order, removed, now);
            && u.sets.Keys == w.sets.Keys && u.recent == w.recent
            && u.order == w.order + Restrict(order, w.sets.Keys)
            && forall id :: id in w.sets ==> PlacedFrom(w.sets[id], u.sets[id], id in order, id in removed, now)
  {
    if |order| > 0 {
      var n := |order| - 1;
      var v, id := PlaceAll(w, order[..n], removed, now), order[n];
      PlaceAllFacts(w, order[..n], removed, now);
      assert order == order[..n] + [id];
      hide PlaceAll, Restrict;
      assert forall x :: x in w.sets <==> x in w.sets.Keys;
      if id in v.sets {
        assert v.sets[id := Installed(v.sets[id], id !in removed, now)].Keys == v.sets.Keys;
      }
      assert w.order + Restrict(order[..n], w.sets.Keys) + [id] == w.order + (Restrict(order[..n], w.sets.Keys) + [id]);
    }
  }

  /** Every ordered set that is still there is installed, so the purge leaves it. */
  lemma PurgeLeavesOrdered(w: Work, order: seq<Id>, removed: seq<Id>, kind: Kind, now: nat, id: Id)
    requires id in Removed(w, removed, kind).sets && id in order
    ensures id in Save(w, order, removed, kind, now).sets
  {
    PlaceAllFacts(Removed(w, removed, kind), order, removed, now);
    assert id in PlaceAll(Removed(w, removed, kind), order, removed, now).sets.Keys;
    hide PlaceAll, Removed;
  }

  /** Afterwards the order is the given order restricted to the sets that are there, and holds every one of those. */
  lemma OrderIsRestricted(w: Work, order: seq<Id>, removed: seq<Id>, kind: Kind, now: nat)
    ensures var u := Save(w, order, removed, kind, now);
            && u.order == Restrict(order, u.sets.Keys)
            && forall id :: id in u.order <==> id in order && id in u.sets
  {
    var r, u := Removed(w, removed, kind), Save(w, order, removed, kind, now);
    PlaceAllFacts(r, order, removed, now);
    forall id | id in order
      ensures id in r.sets.Keys <==> id in u.sets.Keys
    {
      if id in r.sets { PurgeLeavesOrdered(w, order, removed, kind, now, id); }
      assert id in PlaceAll(r, order, removed, now).sets.Keys <==> id in r.sets.Keys;
    }
    assert r.order == [];
    hide PlaceAll, Removed, Save, Restrict;
    RestrictAgrees(order, r.sets.Keys, u.sets.Keys);
    RestrictHas(order, u.sets.Keys);
  }

  /**
    Afterwards a set of the type that is not archived is installed exactly if it is in the given order; and an ordered
    set of any type that is there is installed, and archived only if it was both archived and to be removed.
   */
  lemma InstalledMeansOrdered(w: Work, order: seq<Id>, removed: seq<Id>, kind: Kind, now: nat, id: Id)
    requires id in Save(w, order, removed, kind, now).sets
    ensures var s := Save(w, order, removed, kind, now).sets[id];
            && (KindOf(s) == kind && !s.flags.archived ==> (s.flags.installed <==> id in order))
            && (id in order ==> s.flags.installed && (s.flags.archived ==> id in removed))
  {
    var r := Removed(w, removed, kind);
    PlaceAllFacts(r, order, removed, now);
    assert id in PlaceAll(r, order, removed, now).sets.Keys && id in r.sets.Keys;
    assert PlacedFrom(r.sets[id], PlaceAll(r, order, removed, now).sets[id], id in order, id in removed, now);
    hide PlaceAll, RemoveAll;
  }

  /** The special recent sets go together. */
  ghost predicate TakenAlong(removed: seq<Id>, id: Id) {
    (id == CUSTOM || IsCloudRecent(id)) && exists r :: r in removed && IsCloudRecent(r)
  }

  /** Ids that no removal concerns keep their set, and no set comes back. */
  lemma {:induction false} RemoveAllFacts(w: Work, removed: seq<Id>, id: Id)
    ensures id in RemoveAll(w, removed).sets ==> id in w.sets
    ensures id !in removed && !TakenAlong(removed, id) ==>
              var u := RemoveAll(w, removed);
              (id in u.sets <==> id in w.sets) && (id in w.sets ==> u.sets[id] == w.sets[id])
    ensures id in RemoveAll(w, removed).sets && id in removed && !w.sets[id].flags.archived ==>
              Shown(w.sets[id]) && RemoveAll(w, removed).sets[id] == Uninstalled(w.sets[id])
    ensures id in RemoveAll(w, removed).sets ==>
              RemoveAll(w, removed).sets[id] == w.sets[id] || RemoveAll(w, removed).sets[id] == Uninstalled(w.sets[id])
  {
    if |removed| > 0 {
      var init, last := removed[..|removed| - 1], removed[|removed| - 1];
      RemoveAllFacts(w, init, id);
      assert removed == init + [last];
    }
  }

  /**
    A set that is neither removed, also not along with the special recent ones, nor in the order stays as it was, except
    that the installed flag of its type goes; it is gone exactly if then nothing holds it.
   */
  lemma OthersAreKept(w: Work, order: seq<Id>, removed: seq<Id>, kind: Kind, now: nat, id: Id)
    requires id in w.sets && id !in order && id !in removed && !TakenAlong(removed, id)
    ensures var u := Save(w, order, removed, kind, now);
            && (id in u.sets <==> Stays(Clear(w.sets[id], kind)))
            && (id in u.sets ==> u.sets[id] == Clear(w.sets[id], kind))
  {
    var r := Removed(w, removed, kind);
    RemoveAllFacts(w, removed, id);
    PlaceAllFacts(r, order, removed, now);
    assert id in r.sets.Keys && id in PlaceAll(r, order, removed, now).sets.Keys;
    hide PlaceAll, RemoveAll;
  }

  lemma {:induction false} CloudRecentGo(w: Work, removed: seq<Id>, id: Id)
    ensures TakenAlong(removed, id) ==> id !in RemoveAll(w, removed).sets
  {
    if |removed| > 0 {
      var init, last := removed[..|removed| - 1], removed[|removed| - 1];
      assert removed == init + [last];
      CloudRecentGo(w, init, id);
    }
  }

  lemma TakenAlongNext(removed: seq<Id>, last: Id, id: Id)
    ensures TakenAlong(removed + [last], id)
            <==> TakenAlong(removed, id) || ((id == CUSTOM || IsCloudRecent(id)) && IsCloudRecent(last))
  {
    assert forall r :: r in removed + [last] <==> r in removed || r == last;
  }

  /** Of the removed sets exactly the archived and the shown ones are left; the archived ones as they were. */
  lemma {:induction false} RemovedAreLeft(w: Work, removed: seq<Id>, id: Id)
    requires id in w.sets && id in removed
    ensures id in RemoveAll(w, removed).sets <==>
              (w.sets[id].flags.archived || Shown(w.sets[id])) && !TakenAlong(removed, id)
    ensures id in RemoveAll(w, removed).sets ==>
              RemoveAll(w, removed).sets[id]
              == if w.sets[id].flags.archived then w.sets[id] else Uninstalled(w.sets[id])
  {
    var init, last := removed[..|removed| - 1], removed[|removed| - 1];
    assert removed == init + [last];
    TakenAlongNext(init, last, id);
    hide TakenAlong;
    if id in init {
      RemovedAreLeft(w, init, id);
    } else {
      RemoveAllFacts(w, init, id);
      CloudRecentGo(w, init, id);
    }
  }

  /**
    A removed set, unless it goes along with the special recent ones, is still there exactly if it was archived or
    something else shows it. It is archived exactly if it was, and installed exactly if it is in the order too, or was
    archived and installed.
   */
  lemma RemovedSets(w: Work, order: seq<Id>, removed: seq<Id>, kind: Kind, now: nat, id: Id)
    requires id in w.sets && id in removed
    ensures var f, u := w.sets[id].flags, Save(w, order, removed, kind, now);
            && (id in u.sets <==> (f.archived || Shown(w.sets[id])) && !TakenAlong(removed, id))
            && (id in u.sets ==>
                  && (u.sets[id].flags.archived <==> f.archived)
                  && (u.sets[id].flags.installed <==> id in order || (f.archived && f.installed)))
  {
    var r, u := Removed(w, removed, kind), Save(w, order, removed, kind, now);
    RemovedAreLeft(w, removed, id);
    PlaceAllFacts(r, order, removed, now);
    var p := PlaceAll(r, order, removed, now);
    assert (id in p.sets.Keys <==> id in r.sets.Keys) && (id in r.sets <==> id in RemoveAll(w, removed).sets);
    if id in r.sets { assert PlacedFrom(r.sets[id], p.sets[id], id in order, true, now); }
    hide PlaceAll, RemoveAll, TakenAlong;
  }

  /** A set that is there was installed when it was before, or now if it is in the order and was not installed. */
  lemma InstallDates(w: Work, order: seq<Id>, removed: seq<Id>, kind: Kind, now: nat, id: Id)
    requires id in Save(w, order, removed, kind, now).sets
    ensures id in w.sets
    ensures var before := if id in removed && !w.sets[id].flags.archived then 0 else w.sets[id].installDate;
            Save(w, order, removed, kind, now).sets[id].installDate
            == if id in order && before == 0 then now else before
  {
    var r := Removed(w, removed, kind);
    PlaceAllFacts(r, order, removed, now);
    RemoveAllFacts(w, removed, id);
    CloudRecentGo(w, removed, id);
    var p := PlaceAll(r, order, removed, now);
    assert id in p.sets.Keys && id in r.sets.Keys;
    assert PlacedFrom(r.sets[id], p.sets[id], id in order, id in removed, now);
    if id in removed { RemovedAreLeft(w, removed, id); }
    hide PlaceAll, RemoveAll, TakenAlong;
  }

  // ---------- recent stickers ----------

  /** The stickers of the removed sets. */
  function DocsOf(w: Work, removed: seq<Id>): set<Doc> {
    set id, d | id in removed && id in w.sets && d in w.sets[id].stickers :: d
  }

  lemma {:induction false} WithoutTwice(recent: seq<Doc>, a: set<Doc>, b: set<Doc>)
    ensures WithoutDocs(WithoutDocs(recent, a), b) == WithoutDocs(recent, a + b)
  {
    if |recent| > 0 {
      var init, d := recent[..|recent| - 1], recent[|recent| - 1];
      WithoutTwice(init, a, b);
      var kept := WithoutDocs(init, a);
      assert (kept + [d])[..|kept|] == kept && kept + [] == kept;
    }
  }

  lemma {:induction false} WithoutNone(recent: seq<Doc>)
    ensures WithoutDocs(recent, {}) == recent
  {
    if |recent| > 0 { WithoutNone(recent[..|recent| - 1]); }
  }

  lemma {:induction false} WithoutHas(recent: seq<Doc>, docs: set<Doc>)
    ensures forall d :: d in WithoutDocs(recent, docs) <==> d in recent && d !in docs
  {
    if |recent| > 0 {
      assert recent == recent[..|recent| - 1] + [recent[|recent| - 1]];
      WithoutHas(recent[..|recent| - 1], docs);
    }
  }

  ghost predicate ClearsRecent(removed: seq<Id>) { exists id :: id in removed && IsCloudRecent(id) }

  lemma {:induction false} SameStickers(w: Work, removed: seq<Id>, id: Id)
    ensures id in RemoveAll(w, removed).sets ==>
              id in w.sets && RemoveAll(w, removed).sets[id].stickers == w.sets[id].stickers
  {
    RemoveAllFacts(w, removed, id);
  }

  lemma DocsNext(w: Work, init: seq<Id>, last: Id)
    ensures DocsOf(w, init + [last]) == DocsOf(w, init) + if last in w.sets then w.sets[last].stickers else {}
  {
  }

  lemma ClearsNext(init: seq<Id>, last: Id)
    ensures ClearsRecent(init + [last]) <==> ClearsRecent(init) || IsCloudRecent(last)
  {
    assert forall id :: id in init + [last] <==> id in init || id == last;
  }

  lemma RemoveOneRecent(w: Work, id: Id)
    ensures RemoveOne(w, id).recent
            == if IsCloudRecent(id) then [] else if id in w.sets then WithoutDocs(w.recent, w.sets[id].stickers)
               else w.recent
  {
  }

  lemma {:induction false} RemovingRecent(w: Work, removed: seq<Id>)
    ensures RemoveAll(w, removed).recent
            == if ClearsRecent(removed) then [] else WithoutDocs(w.recent, DocsOf(w, removed))
  {
    if |removed| == 0 {
      assert DocsOf(w, []) == {};
      WithoutNone(w.recent);
    } else {
      var init, last := removed[..|removed| - 1], removed[|removed| - 1];
      assert removed == init + [last];
      RemovingRecent(w, init);
      ClearsNext(init, last);
      DocsNext(w, init, last);
      SameStickers(w, init, last);
      LeftSoFar(w, init, last);
      var v := RemoveAll(w, init);
      RemoveOneRecent(v, last);
      assert RemoveAll(w, removed) == RemoveOne(v, last);
      assert last in v.sets ==> WithoutDocs([], v.sets[last].stickers) == [];
      assert DocsOf(w, init) + {} == DocsOf(w, init);
      hide RemoveOne, RemoveAll, WithoutDocs, DocsOf, ClearsRecent, IsCloudRecent;
      if !IsCloudRecent(last) && !ClearsRecent(init) && last in w.sets {
        if last in v.sets {
          WithoutTwice(w.recent, DocsOf(w, init), w.sets[last].stickers);
        } else {
          GoneDocs(w, init, last);
        }
      }
    }
  }

  lemma GoneDocs(w: Work, init: seq<Id>, id: Id)
    requires id in w.sets && id !in RemoveAll(w, init).sets && !ClearsRecent(init)
    ensures DocsOf(w, init) + w.sets[id].stickers == DocsOf(w, init)
  {
    RemoveAllFacts(w, init, id);
    assert id in init;
  }

  /**
    Recent stickers lose exactly those of the removed sets that were there, and all of them go with the special recent
    ones; the others keep their order.
   */
  lemma RecentLosesRemoved(w: Work, order: seq<Id>, removed: seq<Id>, kind: Kind, now: nat)
    ensures var u := Save(w, order, removed, kind, now);
            && u.recent == (if ClearsRecent(removed) then [] else WithoutDocs(w.recent, DocsOf(w, removed)))
            && (!ClearsRecent(removed) ==>
                  forall d :: d in u.recent <==>
                    d in w.recent && forall id :: id in removed && id in w.sets ==> d !in w.sets[id].stickers)
  {
    PlaceAllFacts(Removed(w, removed, kind), order, removed, now);
    hide PlaceAll, RemoveAll, ClearsRecent, WithoutDocs;
    RemovingRecent(w, removed);
    WithoutHas(w.recent, DocsOf(w, removed));
  }

  // ---------- the requests ----------

  /** Some removal of the id comes before one of the special recent sets that takes it along. */
  ghost predicate RemovedInTime(removed: seq<Id>, id: Id) {
    exists i :: 0 <= i < |removed| && removed[i] == id && !IsCloudRecent(id) && !TakenAlong(removed[..i], id)
  }

  lemma InTimeNext(init: seq<Id>, last: Id, id: Id)
    ensures RemovedInTime(init + [last], id)
            <==> RemovedInTime(init, id) || (last == id && !IsCloudRecent(id) && !TakenAlong(init, id))
  {
    var removed := init + [last];
    hide TakenAlong;
    forall i | 0 <= i <= |init| ensures removed[..i] == init[..i] {}
    if RemovedInTime(init, id) {
      var i :| 0 <= i < |init| && init[i] == id && !IsCloudRecent(id) && !TakenAlong(init[..i], id);
      assert removed[i] == id && removed[..i] == init[..i];
    }
    if last == id && !IsCloudRecent(id) && !TakenAlong(init, id) {
      assert removed[|init|] == id && removed[..|init|] == init;
    }
  }

  lemma {:induction false} RemovalsSent(w: Work, removed: seq<Id>, id: Id)
    ensures Uninstall(id) in RemoveAll(w, removed).sent <==>
              || Uninstall(id) in w.sent
              || (id in w.sets && !w.sets[id].flags.archived && RemovedInTime(removed, id))
  {
    if |removed| > 0 {
      var init, last := removed[..|removed| - 1], removed[|removed| - 1];
      assert removed == init + [last];
      RemovalsSent(w, init, id);
      InTimeNext(init, last, id);
      if id == last { LeftSoFar(w, init, id); }
      hide TakenAlong, RemovedInTime;
    }
  }

  /** What the removals so far leave of a set, as far as the next one looks at it. */
  lemma LeftSoFar(w: Work, init: seq<Id>, id: Id)
    ensures var u := RemoveAll(w, init);
            && (id in u.sets ==> id in w.sets && !TakenAlong(init, id))
            && (id in u.sets ==> (u.sets[id].flags.archived <==> w.sets[id].flags.archived))
            && (id in w.sets && id !in u.sets && !w.sets[id].flags.archived ==> TakenAlong(init, id) || id in init)
  {
    RemoveAllFacts(w, init, id);
    CloudRecentGo(w, init, id);
    if id in w.sets && id in init { RemovedAreLeft(w, init, id); }
  }

  lemma {:induction false} InstallsSent(w: Work, order: seq<Id>, removed: seq<Id>, now: nat, r: Request)
    ensures r in PlaceAll(w, order, removed, now).sent <==>
              || r in w.sent
              || (r.Install? && r.id in order && r.id !in removed && r.id in w.sets && w.sets[r.id].flags.archived)
  {
    if |order| > 0 {
      var init, id := order[..|order| - 1], order[|order| - 1];
      InstallsSent(w, init, removed, now, r);
      PlaceAllFacts(w, init, removed, now);
      var v := PlaceAll(w, init, removed, now);
      assert order == init + [id];
      assert id in v.sets.Keys <==> id in w.sets.Keys;
      if id in w.sets { assert PlacedFrom(w.sets[id], v.sets[id], id in init, id in removed, now); }
      hide PlaceAll;
    }
  }

  /** Exactly the removed sets that are there and not archived are uninstalled by a request, unless gone by then. */
  lemma UninstallsSent(w: Work, order: seq<Id>, removed: seq<Id>, kind: Kind, now: nat, id: Id)
    requires w.sent == []
    ensures Uninstall(id) in Save(w, order, removed, kind, now).sent <==>
              id in w.sets && !w.sets[id].flags.archived && RemovedInTime(removed, id)
    ensures id in removed && !TakenAlong(removed, id) ==> RemovedInTime(removed, id)
  {
    RemovalsSent(w, removed, id);
    InstallsSent(Removed(w, removed, kind), order, removed, now, Uninstall(id));
    InTimeUnlessAlong(removed, id);
    hide PlaceAll, RemoveAll, TakenAlong, RemovedInTime;
  }

  lemma InTimeUnlessAlong(removed: seq<Id>, id: Id)
    ensures id in removed && !TakenAlong(removed, id) ==> RemovedInTime(removed, id)
  {
    if id in removed && !TakenAlong(removed, id) {
      var i :| 0 <= i < |removed| && removed[i] == id;
      assert !TakenAlong(removed[..i], id) by { assert forall r :: r in removed[..i] ==> r in removed; }
    }
  }

  lemma {:induction false} RecentRemoved(w: Work, removed: seq<Id>, attached: bool)
    ensures ClearRecent(attached) in RemoveAll(w, removed).sent <==>
              ClearRecent(attached) in w.sent || (if attached then CLOUD_RECENT_ATTACHED else CLOUD_RECENT) in removed
  {
    if |removed| > 0 {
      assert removed == removed[..|removed| - 1] + [removed[|removed| - 1]];
      RecentRemoved(w, removed[..|removed| - 1], attached);
    }
  }

  /** The recent stickers, or those attached, are cleared by a request exactly if their special set is to be removed. */
  lemma RecentIsCleared(w: Work, order: seq<Id>, removed: seq<Id>, kind: Kind, now: nat, attached: bool)
    requires w.sent == []
    ensures ClearRecent(attached) in Save(w, order, removed, kind, now).sent <==>
              (if attached then CLOUD_RECENT_ATTACHED else CLOUD_RECENT) in removed
  {
    RecentRemoved(w, removed, attached);
    InstallsSent(Removed(w, removed, kind), order, removed, now, ClearRecent(attached));
    hide PlaceAll, RemoveAll;
  }

  lemma {:induction false} NoInstallsWhileRemoving(w: Work, removed: seq<Id>, id: Id)
    requires Install(id) !in w.sent
    ensures Install(id) !in RemoveAll(w, removed).sent
  {
    if |removed| > 0 { NoInstallsWhileRemoving(w, removed[..|removed| - 1], id); }
  }

  /** Exactly the archived sets of the order that are not to be removed are installed by a request. */
  lemma InstallsAreNeeded(w: Work, order: seq<Id>, removed: seq<Id>, kind: Kind, now: nat, id: Id)
    requires w.sent == []
    ensures Install(id) in Save(w, order, removed, kind, now).sent <==>
              && id in order && id !in removed && id in w.sets && w.sets[id].flags.archived && !TakenAlong(removed, id)
  {
    var r := Removed(w, removed, kind);
    RemoveAllFacts(w, removed, id);
    NoInstallsWhileRemoving(w, removed, id);
    InstallsSent(r, order, removed, now, Install(id));
    CloudRecentGo(w, removed, id);
    hide PlaceAll, RemoveAll;
  }

  // ---------- sending the order ----------

  /** A request in flight: to install or uninstall a set, with the order its handler would send, or to reorder. */
  datatype Waiting = Disenable(order: seq<Id>) | Reorder

  /** A reorder request that went out: the call, the order, and the requests made by that call. */
  datatype Sent = Sent(call: nat, order: seq<Id>, made: set<nat>)

  /**
    The requests of one type of sets: those to install or uninstall that are open, and the one to reorder. `made`,
    `answered` and `calls` are history.
   */
  datatype Queue = Queue(
    setDisenableRequests: set<nat>, reorderRequestId: nat, wire: map<nat, Waiting>, lastId: nat,
    order: seq<Id>, made: set<nat>, answered: set<nat>, calls: nat, log: seq<Sent>)

  const IDLE := Queue({}, 0, map[], 0, [], {}, {}, 0, [])

  /** stickersSaveOrder, for the order of the call that made the request. */
  function SaveOrder(q: Queue, order: seq<Id>): Queue {
    if |order| < 2 then q
    else
      q.(reorderRequestId := q.lastId + 1, lastId := q.lastId + 1, wire := q.wire[q.lastId + 1 := Reorder],
         log := q.log + [Sent(q.calls, order, q.made)])
  }

  /** The next n ids. */
  function Fresh(lastId: nat, n: nat): (ids: set<nat>)
    ensures forall id :: id in ids <==> lastId < id <= lastId + n
    ensures ids == {} <==> n == 0
  {
    if n == 0 then {} else Fresh(lastId, n - 1) + {lastId + n}
  }

  function MakeRequests(ids: set<nat>, order: seq<Id>): map<nat, Waiting> { map id | id in ids :: Disenable(order) }

  function Cancelled(q: Queue): map<nat, Waiting> { q.wire - q.setDisenableRequests - {q.reorderRequestId} }

  function NewCall(q: Queue, order: seq<Id>, n: nat): Queue {
    var ids := Fresh(q.lastId, n);
    q.(setDisenableRequests := ids, reorderRequestId := 0, lastId := q.lastId + n,
       wire := Cancelled(q) + MakeRequests(ids, order), order := order, made := ids, calls := q.calls + 1)
  }

  /** A call: the requests of the calls before are cancelled, n requests are made. */
  function Call(q: Queue, order: seq<Id>, n: nat): Queue {
    var u := NewCall(q, order, n);
    if n == 0 then SaveOrder(u, order) else u
  }

  /** Done and failed replies do the same. */
  function Answer(q: Queue, id: nat): Queue
    requires id in q.wire
  {
    var u := q.(wire := q.wire - {id}, answered := q.answered + {id});
    match q.wire[id]
    case Reorder => u.(reorderRequestId := 0)
    case Disenable(order) =>
      var v := u.(setDisenableRequests := q.setDisenableRequests - {id});
      if v.setDisenableRequests == {} then SaveOrder(v, order) else v
  }

  datatype Event = Saved(order: seq<Id>, n: nat) | Answered(id: nat)

  predicate Possible(q: Queue, e: Event) { e.Answered? ==> e.id in q.wire }

  function Step(q: Queue, e: Event): Queue
    requires Possible(q, e)
  {
    match e
    case Saved(order, n) => Call(q, order, n)
    case Answered(id) => Answer(q, id)
  }

  /** Only requests of the last call are in flight, those to install or uninstall with its order. */
  ghost predicate WireFits(q: Queue) {
    && (forall id :: id in q.wire ==> 0 < id <= q.lastId)
    && (forall id :: id in q.wire && q.wire[id].Disenable? <==> id in q.setDisenableRequests)
    && (forall id :: id in q.setDisenableRequests ==> q.wire[id] == Disenable(q.order))
    && (forall id :: id in q.wire && q.wire[id] == Reorder ==> id == q.reorderRequestId)
  }

  ghost predicate MadeFits(q: Queue) {
    && q.setDisenableRequests == q.made - q.answered
    && (forall id :: id in q.made || id in q.answered ==> 0 < id <= q.lastId)
  }

  ghost predicate LogFits(q: Queue) {
    && (forall i :: 0 <= i < |q.log| ==>
          0 < q.log[i].call <= q.calls && |q.log[i].order| >= 2 && q.log[i].made <= q.answered)
    && (forall i, j :: 0 <= i < j < |q.log| ==> q.log[i].call < q.log[j].call)
    && (forall i :: 0 <= i < |q.log| && q.log[i].call == q.calls ==>
          q.log[i].order == q.order && q.log[i].made == q.made)
  }

  ghost predicate Logged(q: Queue) { exists i :: 0 <= i < |q.log| && q.log[i].call == q.calls }

  ghost predicate NoReorder(q: Queue) { forall id :: id in q.wire ==> q.wire[id] != Reorder }

  /** The last call has sent its order exactly if it has one and nothing is waited for. */
  ghost predicate SentWhenDone(q: Queue) {
    && (q.calls > 0 ==> (Logged(q) <==> q.setDisenableRequests == {} && |q.order| >= 2))
    && (q.calls == 0 ==> q.setDisenableRequests == {})
    && (q.setDisenableRequests != {} ==> NoReorder(q))
  }

  ghost predicate Inv(q: Queue) { WireFits(q) && MadeFits(q) && LogFits(q) && SentWhenDone(q) }

  lemma NothingOpen(made: set<nat>, answered: set<nat>)
    ensures made - answered == {} <==> made <= answered
  {
    if made - answered == {} {
      forall id | id in made ensures id in answered { assert id !in made - answered; }
    }
  }

  lemma SaveOrderLogs(q: Queue)
    requires LogFits(q) && MadeFits(q) && q.calls > 0 && q.setDisenableRequests == {} && !Logged(q) && |q.order| >= 2
    ensures LogFits(SaveOrder(q, q.order)) && Logged(SaveOrder(q, q.order))
  {
    var u := SaveOrder(q, q.order);
    NothingOpen(q.made, q.answered);
    assert u.log[|q.log|].call == u.calls;
    forall i | 0 <= i < |q.log| ensures u.log[i] == q.log[i] && u.log[i].call != q.calls { }
  }

  lemma SaveOrderKeeps(q: Queue)
    requires WireFits(q) && MadeFits(q) && LogFits(q) && q.calls > 0 && q.setDisenableRequests == {} && !Logged(q)
    requires NoReorder(q)
    ensures Inv(SaveOrder(q, q.order))
  {
    if |q.order| >= 2 { SaveOrderLogs(q); }
    hide LogFits, Logged;
  }

  lemma NewCallFits(q: Queue, order: seq<Id>, n: nat)
    requires Inv(q)
    ensures var u := NewCall(q, order, n);
            WireFits(u) && MadeFits(u) && LogFits(u) && !Logged(u) && NoReorder(u)
  {
    var u := NewCall(q, order, n);
    assert NoReorder(u) && WireFits(u) by { hide MadeFits, LogFits, SentWhenDone; }
    assert MadeFits(u) by { hide WireFits, LogFits, SentWhenDone; }
    hide WireFits, MadeFits, SentWhenDone, Fresh;
  }

  lemma CallKeeps(q: Queue, order: seq<Id>, n: nat)
    requires Inv(q)
    ensures Inv(Call(q, order, n))
  {
    NewCallFits(q, order, n);
    hide WireFits, MadeFits, LogFits, Logged, NoReorder;
    if n == 0 { SaveOrderKeeps(NewCall(q, order, n)); }
  }

  /** The queue without the answered request. */
  function Taken(q: Queue, id: nat): Queue
    requires id in q.wire
  {
    var u := q.(wire := q.wire - {id}, answered := q.answered + {id});
    if q.wire[id] == Reorder then u.(reorderRequestId := 0)
    else u.(setDisenableRequests := q.setDisenableRequests - {id})
  }

  lemma TakenFits(q: Queue, id: nat)
    requires Inv(q) && id in q.wire
    ensures var u := Taken(q, id);
            && WireFits(u) && MadeFits(u) && LogFits(u) && (Logged(u) <==> Logged(q))
            && (q.wire[id].Disenable? ==> NoReorder(u) && q.wire[id].order == q.order && !Logged(q) && q.calls > 0)
  {
    var u := Taken(q, id);
    assert q.wire[id].Disenable? ==> q.setDisenableRequests != {};
    assert NoReorder(q) ==> NoReorder(u);
    assert WireFits(u) by { hide MadeFits, LogFits, SentWhenDone; }
    assert MadeFits(u) by { hide LogFits, SentWhenDone; }
    assert LogFits(u) by { hide WireFits, MadeFits, SentWhenDone; }
    assert Logged(u) <==> Logged(q);
    hide MadeFits, LogFits, Logged, NoReorder;
  }

  lemma AnswerKeeps(q: Queue, id: nat)
    requires Inv(q) && id in q.wire
    ensures Inv(Answer(q, id))
  {
    TakenFits(q, id);
    var u := Taken(q, id);
    assert q.wire[id] == Reorder ==> SentWhenDone(u) by { hide MadeFits, LogFits, Logged; }
    hide WireFits, MadeFits, LogFits, Logged, NoReorder;
    if q.wire[id].Disenable? && u.setDisenableRequests == {} { SaveOrderKeeps(u); }
  }

  // ---------- runs ----------

  ghost predicate IsRun(states: seq<Queue>, events: seq<Event>) {
    && |states| == |events| + 1
    && states[0] == IDLE
    && forall i :: 0 <= i < |events| ==> Possible(states[i], events[i]) && states[i + 1] == Step(states[i], events[i])
  }

  lemma {:induction false} RunKeeps(states: seq<Queue>, events: seq<Event>, n: nat)
    requires IsRun(states, events) && n < |states|
    ensures Inv(states[n])
  {
    if n > 0 {
      RunKeeps(states, events, n - 1);
      hide Inv, Call, Answer;
      match events[n - 1]
      case Saved(order, m) => CallKeeps(states[n - 1], order, m);
      case Answered(id) => AnswerKeeps(states[n - 1], id);
    } else {
      assert states[0] == IDLE;
    }
  }

  /**
    In every run of calls and answers, an order goes out only when every request to install or uninstall made by that
    call was answered, at most once for each call, and only with two sets or more; and the last call has sent its
    own order exactly if none of its requests is open and it has two sets or more.
   */
  lemma OrderGoesLast(states: seq<Queue>, events: seq<Event>, n: nat)
    requires IsRun(states, events) && n < |states|
    ensures var q := states[n];
            && (forall i :: 0 <= i < |q.log| ==> q.log[i].made <= q.answered && |q.log[i].order| >= 2)
            && (forall i, j :: 0 <= i < j < |q.log| ==> q.log[i].call < q.log[j].call)
            && (forall i :: 0 <= i < |q.log| && q.log[i].call == q.calls ==> q.log[i].order == q.order)
            && (q.calls > 0 ==> (Logged(q) <==> q.made <= q.answered && |q.order| >= 2))
  {
    RunKeeps(states, events, n);
    var q := states[n];
    NothingOpen(q.made, q.answered);
    hide IsRun, Logged, WireFits;
  }

  /** Only requests of the last call are ever in flight, and at most one of them is to reorder. */
  lemma OlderCallsAreCancelled(states: seq<Queue>, events: seq<Event>, n: nat)
    requires IsRun(states, events) && n < |states|
    ensures var q := states[n];
            && (forall id | id in q.wire && q.wire[id].Disenable? :: id in q.made && q.wire[id].order == q.order)
            && (forall i, j :: i in q.wire && j in q.wire && q.wire[i] == Reorder && q.wire[j] == Reorder ==> i == j)
            && (q.setDisenableRequests != {} ==> forall id :: id in q.wire ==> q.wire[id] != Reorder)
  {
    RunKeeps(states, events, n);
    hide IsRun, Logged, LogFits;
  }

  // ---------- the object ----------

  /** How many of the requests are waited for. */
  function Open(sent: seq<Request>): nat {
    if |sent| == 0 then 0
    else Open(sent[..|sent| - 1]) + if sent[|sent| - 1].ClearRecent? then 0 else 1
  }

  /** The places of the requests to install or to uninstall. */
  function Opening(sent: seq<Request>): set<nat> {
    set i: nat | i < |sent| && (sent[i].Install? || sent[i].Uninstall?)
  }

  lemma OpeningNext(init: seq<Request>, last: Request)
    ensures Opening(init + [last]) == Opening(init) + if last.ClearRecent? then {} else {|init|}
    ensures |init| !in Opening(init)
  {
    var sent := init + [last];
    forall i: nat
      ensures i in Opening(sent) <==> i in Opening(init) || (i == |init| && !last.ClearRecent?)
    {
      if i < |init| { assert sent[i] == init[i]; }
    }
  }

  lemma {:induction false} OpenCounts(sent: seq<Request>)
    ensures Open(sent) == |Opening(sent)|
  {
    if |sent| == 0 {
      assert Opening(sent) == {};
    } else {
      var n := |sent| - 1;
      OpenCounts(sent[..n]);
      OpeningNext(sent[..n], sent[n]);
      assert sent == sent[..n] + [sent[n]];
      hide Opening;
    }
  }

  lemma {:induction false} FreshCount(lastId: nat, n: nat)
    ensures |Fresh(lastId, n)| == n
  {
    if n > 0 { FreshCount(lastId, n - 1); }
  }

  /** What a save leaves in flight: nothing of older calls, one request for each install or uninstall, or the order. */
  ghost predicate InFlight(q: Queue, u: Queue, order: seq<Id>, opening: nat) {
    && |u.setDisenableRequests| == opening
    && (forall id :: id in u.setDisenableRequests ==> id in u.wire && u.wire[id] == Disenable(order))
    && (forall id :: id in u.wire ==> id > q.lastId && (id in u.setDisenableRequests || u.wire[id] == Reorder))
    && if opening == 0 && |order| >= 2 then
         && u.log == q.log + [Sent(u.calls, order, {})]
         && u.reorderRequestId in u.wire && u.wire[u.reorderRequestId] == Reorder
       else u.log == q.log && NoReorder(u)
  }

  /** The order of a save goes out at once exactly if no set had to be installed or uninstalled. */
  lemma CallSends(q: Queue, order: seq<Id>, sent: seq<Request>)
    requires Inv(q)
    ensures InFlight(q, Call(q, order, Open(sent)), order, |Opening(sent)|)
  {
    OpenCounts(sent);
    FreshCount(q.lastId, Open(sent));
    assert forall id :: id in q.wire ==> id in q.setDisenableRequests || id == q.reorderRequestId;
    hide Open, Opening, MadeFits, LogFits, SentWhenDone, WireFits;
    CallInFlight(q, order, Open(sent));
  }

  lemma NewCallWire(q: Queue, order: seq<Id>, n: nat)
    requires forall id :: id in q.wire ==> id in q.setDisenableRequests || id == q.reorderRequestId
    ensures var v, ids := NewCall(q, order, n), Fresh(q.lastId, n);
            && v.setDisenableRequests == ids && v.wire == MakeRequests(ids, order) && v.lastId == q.lastId + n
            && v.log == q.log && v.made == ids && v.calls == q.calls + 1
  {
    assert Cancelled(q) == map[];
    hide Fresh;
  }

  lemma CallInFlight(q: Queue, order: seq<Id>, n: nat)
    requires forall id :: id in q.wire ==> id in q.setDisenableRequests || id == q.reorderRequestId
    requires |Fresh(q.lastId, n)| == n
    ensures InFlight(q, Call(q, order, n), order, n)
  {
    NewCallWire(q, order, n);
    hide NewCall, Fresh, Cancelled, InFlight, NoReorder;
    var v, ids := NewCall(q, order, n), Fresh(q.lastId, n);
    assert v.wire.Keys == ids && forall id :: id in ids ==> id > q.lastId && v.wire[id] == Disenable(order);
    hide MakeRequests;
    if n == 0 { NothingInFlight(q, v, order); } else { SomeInFlight(q, v, order, n); }
  }

  lemma SomeInFlight(q: Queue, v: Queue, order: seq<Id>, n: nat)
    requires |v.setDisenableRequests| == n > 0 && v.wire.Keys == v.setDisenableRequests && v.log == q.log
    requires forall id :: id in v.wire ==> id > q.lastId && v.wire[id] == Disenable(order)
    ensures InFlight(q, v, order, n)
  {
  }

  lemma NothingInFlight(q: Queue, v: Queue, order: seq<Id>)
    requires v.setDisenableRequests == {} == v.made && v.wire == map[] && v.log == q.log && v.lastId == q.lastId
    ensures InFlight(q, SaveOrder(v, order), order, 0)
  {
  }

  /** In every run the last answer to a save's requests, and no other, sends the save's order. */
  lemma AnswersSendOrder(states: seq<Queue>, events: seq<Event>, n: nat, id: nat)
    requires IsRun(states, events) && n < |events| && events[n] == Answered(id)
    ensures var q, u := states[n], states[n + 1];
            if q.setDisenableRequests == {id} && |q.order| >= 2 then
              && u.log == q.log + [Sent(q.calls, q.order, q.made)] && u.reorderRequestId > q.lastId
              && u.wire == (q.wire - {id})[u.reorderRequestId := Reorder]
            else u.log == q.log && u.wire == q.wire - {id}
  {
    RunKeeps(states, events, n);
    var q := states[n];
    assert q.wire[id].Disenable? <==> id in q.setDisenableRequests;
    assert q.setDisenableRequests - {id} == {} && id in q.setDisenableRequests <==> q.setDisenableRequests == {id};
    hide IsRun, Inv;
  }

  /** ApiWrap and the sets, for one type. */
  class StickerSaver {
    var sets: map<Id, StickersSet>
    var recent: seq<Doc>
    var orderRef: seq<Id>
    var sent: seq<Request>
    var queue: Queue
    const kind: Kind

    ghost function Abs(): Work
      reads this
    {
      Work(sets, recent, orderRef, sent)
    }

    constructor (kind: Kind, sets: map<Id, StickersSet>, recent: seq<Doc>, order: seq<Id>)
      ensures Abs() == Work(sets, recent, order, []) && queue == IDLE
    {
      this.kind, this.sets, this.recent, orderRef := kind, sets, recent, order;
      sent, queue := [], IDLE;
    }

    method EraseRecent(docs: set<Doc>)
      modifies this`recent
      ensures recent == WithoutDocs(old(recent), docs)
    {
      var i := 0;
      ghost var k := 0;
      ghost var was := recent;
      assert was[..0] == [];
      while i < |recent|
        invariant k <= |was| && i <= |recent| && recent[i..] == was[k..]
        invariant recent[..i] == WithoutDocs(was[..k], docs)
        decreases |recent| - i
      {
        assert was[..k + 1][..k] == was[..k] && was[k] == recent[i];
        if recent[i] in docs {
          recent := recent[..i] + recent[i + 1..];
        } else {
          i := i + 1;
        }
        k := k + 1;
      }
      assert was[..k] == was && recent[..i] == recent;
    }

    method RemoveSet(id: Id)
      modifies this`sets, this`recent, this`sent
      ensures Abs() == RemoveOne(old(Abs()), id)
    {
      if IsCloudRecent(id) {
        sets := sets - {CLOUD_RECENT, CLOUD_RECENT_ATTACHED, CUSTOM};
        recent := [];
        sent := sent + [ClearRecent(id == CLOUD_RECENT_ATTACHED)];
        return;
      }
      if id !in sets { return; }
      var removedSet := sets[id];
      EraseRecent(removedSet.stickers);
      if !removedSet.flags.archived {
        sent := sent + [Uninstall(id)];
        if Shown(removedSet) {
          sets := sets[id := Uninstalled(removedSet)];
        } else {
          sets := sets - {id};
        }
      }
    }

    /** All sets of the type lose the flag, in any order. */
    method ClearInstalled()
      modifies this`sets
      ensures sets == ClearAll(old(sets), kind)
    {
      var todo := sets.Keys;
      while todo != {}
        invariant todo <= old(sets).Keys && sets.Keys == old(sets).Keys
        invariant forall id :: id in sets ==>
                    sets[id] == if id in todo then old(sets)[id] else Clear(old(sets)[id], kind)
        decreases |todo|
      {
        var id :| id in todo;
        todo := todo - {id};
        sets := sets[id := Clear(sets[id], kind)];
      }
    }

    method PlaceSet(id: Id, removed: seq<Id>, now: nat)
      modifies this`sets, this`orderRef, this`sent
      ensures Abs() == PlaceOne(old(Abs()), id, removed, now)
    {
      if id !in sets { return; }
      var s := sets[id];
      if s.flags.archived && id !in removed { sent := sent + [Install(id)]; }
      orderRef := orderRef + [id];
      sets := sets[id := Installed(s, id !in removed, now)];
    }

    method PurgeSets()
      modifies this`sets
      ensures sets == Purge(old(sets))
    {
      var todo := sets.Keys;
      while todo != {}
        invariant todo <= old(sets).Keys
        invariant forall id :: id in sets <==> id in old(sets) && (id in todo || Stays(old(sets)[id]))
        invariant forall id :: id in sets ==> sets[id] == old(sets)[id]
        decreases |todo|
      {
        var id :| id in todo;
        todo := todo - {id};
        if !Stays(sets[id]) { sets := sets - {id}; }
      }
    }

    method SaveStickerSets(localOrder: seq<Id>, localRemoved: seq<Id>, now: nat)
      modifies this
      ensures Abs() == Save(old(Abs()).(sent := []), localOrder, localRemoved, kind, now)
      ensures queue == Call(old(queue), localOrder, Open(sent))
      ensures Inv(old(queue)) ==> Inv(queue) && InFlight(old(queue), queue, localOrder, |Opening(sent)|)
    {
      hide RemoveOne, PlaceOne, ClearAll, Purge, Call, Open, Inv, InFlight;
      sent := [];
      ghost var w := Abs();
      assert localRemoved[..0] == [];
      for i := 0 to |localRemoved|
        invariant Abs() == RemoveAll(w, localRemoved[..i]) && queue == old(queue)
      {
        assert localRemoved[..i + 1][..i] == localRemoved[..i];
        RemoveSet(localRemoved[i]);
      }
      assert localRemoved[..|localRemoved|] == localRemoved;
      ClearInstalled();
      orderRef := [];
      ghost var r := Abs();
      assert r == Removed(w, localRemoved, kind);
      hide RemoveAll, Removed;
      assert localOrder[..0] == [];
      for i := 0 to |localOrder|
        invariant Abs() == PlaceAll(r, localOrder[..i], localRemoved, now) && queue == old(queue)
      {
        assert localOrder[..i + 1][..i] == localOrder[..i];
        PlaceSet(localOrder[i], localRemoved, now);
      }
      assert localOrder[..|localOrder|] == localOrder;
      hide PlaceAll;
      PurgeSets();
      if Inv(queue) {
        CallKeeps(queue, localOrder, Open(sent));
        CallSends(queue, localOrder, sent);
      }
      queue := Call(queue, localOrder, Open(sent));
    }

    /** stickerSetDisenabled, and the handlers of the reorder request. */
    method OnAnswer(id: nat)
      requires id in queue.wire
      modifies this`queue
      ensures queue == Answer(old(queue), id)
    {
      var waiting := queue.wire[id];
      queue := queue.(wire := queue.wire - {id}, answered := queue.answered + {id});
      match waiting
      case Reorder => queue := queue.(reorderRequestId := 0);
      case Disenable(order) =>
        queue := queue.(setDisenableRequests := queue.setDisenableRequests - {id});
        if queue.setDisenableRequests == {} { queue := SaveOrder(queue, order); }
    }
  }
}
