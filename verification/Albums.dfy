/**
  Assembling an album (apiwrap.cpp, storage/localimageloader.cpp): items are uploaded one by one, may be cancelled
  in between, and the album is sent once every remaining item has its media.

  The environment chooses the answers of the callbacks and of the message table; `crashed` records a failed Assert.
 */
module Albums {
  import opened Wrappers

  type Group = nat
  type Id = nat
  type Media = nat

  datatype Item = Item(id: Id, media: Option<Media>)

  datatype Album = Album(items: seq<Item>, sent: bool)

  /** How an album that is ready can go: the usual way, as paid media, to an ephemeral message, or refused by
      the localIdAllocated callback. */
  datatype Mode = Usual | Paid | ToEphemeral | Refused

  datatype Kind = SingleMedia | MultiMedia | PaidMedia | EphemeralParts

  /** A send, with the cancellations up to then and the messages that were in the table. */
  datatype Send = Send(group: Group, kind: Kind, parts: seq<Item>, cancelled: set<Id>, present: set<Id>)

  datatype State = State(
    albums: map<Group, Album>, ordered: map<Group, seq<Id>>, messages: set<Id>, uploading: set<Id>,
    uploaded: map<Id, Media>, cancelled: set<Id>, sends: seq<Send>, crashed: bool)

  const INITIAL := State(map[], map[], {}, {}, map[], {}, [], false)

  // ---------- sequences of items ----------

  function Ids(items: seq<Item>): (r: seq<Id>)
    ensures |r| == |items|
  {
    seq(|items|, i requires 0 <= i < |items| => items[i].id)
  }

  predicate AllFilled(items: seq<Item>) { forall i :: 0 <= i < |items| ==> items[i].media.Some? }

  /** The ids in a set, in order. */
  function Kept(ids: seq<Id>, keep: set<Id>): seq<Id> {
    if |ids| == 0 then []
    else Kept(ids[..|ids| - 1], keep) + if ids[|ids| - 1] in keep then [ids[|ids| - 1]] else []
  }

  /** The items whose message exists. */
  function Present(items: seq<Item>, messages: set<Id>): seq<Item> {
    if |items| == 0 then []
    else
      var last := items[|items| - 1];
      Present(items[..|items| - 1], messages) + if last.id in messages then [last] else []
  }

  function Find(items: seq<Item>, id: Id): (i: nat)
    ensures i <= |items| && (i < |items| ==> items[i].id == id)
    ensures i == |items| ==> forall k :: 0 <= k < |items| ==> items[k].id != id
  {
    if |items| == 0 then 0 else if items[0].id == id then 0 else 1 + Find(items[1..], id)
  }

  // ---------- what each function does ----------

  function Remove(s: State, g: Group): State { s.(albums := s.albums - {g}) }

  function Crash(s: State): State { s.(crashed := true) }

  /** sendAlbumIfReady */
  function SendIfReady(s: State, g: Group, mode: Mode): (u: State)
    requires g in s.albums
    ensures s.sends <= u.sends && u == s.(albums := u.albums, sends := u.sends)
  {
    var a := s.albums[g];
    if a.sent then s
    else if a.items == [] then Remove(s, g)
    else if !AllFilled(a.items) then s
    else if Present(a.items, s.messages) == [] then Remove(s, g)
    else
      match mode
      case Refused => s
      case ToEphemeral =>
        Remove(s, g).(sends :=
          s.sends + [Send(g, EphemeralParts, Present(a.items, s.messages), s.cancelled, s.messages)])
      case Paid => s.(albums := s.albums[g := a.(sent := true)],
                      sends := s.sends + [Send(g, PaidMedia, a.items, s.cancelled, s.messages)])
      case Usual =>
        if |a.items| < 2 then Remove(s, g).(sends := s.sends + [Send(g, SingleMedia, a.items, s.cancelled, s.messages)])
        else s.(albums := s.albums[g := a.(sent := true)],
                sends := s.sends + [Send(g, MultiMedia, a.items, s.cancelled, s.messages)])
  }

  function Fill(items: seq<Item>, i: nat, media: Media): (r: seq<Item>)
    requires i < |items|
    ensures |r| == |items|
  {
    items[i := items[i].(media := Some(media))]
  }

  /** sendAlbumWithUploaded: the album must be registered, hold the item, and not have its media yet. */
  function WithUploaded(s: State, id: Id, g: Group, media: Media, mode: Mode): (u: State)
    ensures s.sends <= u.sends
  {
    if g !in s.albums then Crash(s)
    else
      var a := s.albums[g];
      var i := Find(a.items, id);
      if i == |a.items| || a.items[i].media.Some? then Crash(s)
      else SendIfReady(s.(albums := s.albums[g := a.(items := Fill(a.items, i, media))],
                          uploaded := s.uploaded[id := media]), g, mode)
  }

  /** sendAlbumWithCancelled: a registered album must hold the item. */
  function WithCancelled(s: State, id: Id, g: Group, mode: Mode): (u: State)
    ensures s.sends <= u.sends
  {
    if g !in s.albums then s
    else
      var a := s.albums[g];
      var i := Find(a.items, id);
      if i == |a.items| then Crash(s)
      else SendIfReady(s.(albums := s.albums[g := a.(items := a.items[..i] + a.items[i + 1..])]), g, mode)
  }

  datatype Event =
    | Start(group: Group, ids: seq<Id>)
    | UploadDone(id: Id, media: Media, valid: bool, mode: Mode)
    | UploadFails(id: Id)
    | UploadAgain(id: Id)
    | Cancel(id: Id, mode: Mode, leavesTable: bool)
    | Vanishes(id: Id)
    | Reply(group: Group, destroysMessages: bool)

  ghost predicate Distinct(ids: seq<Id>) { forall i, j :: 0 <= i < j < |ids| ==> ids[i] != ids[j] }

  ghost predicate InGroup(s: State, id: Id, g: Group) { g in s.ordered && id in s.ordered[g] }

  ghost predicate Possible(s: State, e: Event) {
    match e
    case Start(g, ids) => g !in s.ordered && Distinct(ids) && ids != []
                          && forall h, id :: h in s.ordered && id in s.ordered[h] ==> id !in ids
    case UploadDone(id, _, _, _) => id in s.uploading && exists g :: InGroup(s, id, g)
    case UploadFails(id) => id in s.uploading
    case UploadAgain(id) => exists g :: InGroup(s, id, g)
    case Cancel(id, _, _) => id in s.messages && exists g :: InGroup(s, id, g)
    case Vanishes(_) => true
    case Reply(g, _) => g in s.albums && s.albums[g].sent
  }

  /** The group a message belongs to. */
  ghost function GroupOf(s: State, id: Id): (g: Group)
    requires exists g :: InGroup(s, id, g)
    ensures InGroup(s, id, g)
  {
    var g :| InGroup(s, id, g);
    g
  }

  ghost function Step(s: State, e: Event): State
    requires Possible(s, e)
  {
    match e
    case Start(g, ids) =>
      s.(albums := s.albums[g := Album(seq(|ids|, i requires 0 <= i < |ids| => Item(ids[i], None)), false)],
         ordered := s.ordered[g := ids],
         messages := s.messages + (set id | id in ids), uploading := s.uploading + (set id | id in ids))
    case UploadDone(id, media, valid, mode) =>
      var u := s.(uploading := s.uploading - {id});
      if id !in s.messages || !valid then u else WithUploaded(u, id, GroupOf(s, id), media, mode)
    case UploadFails(id) => s.(uploading := s.uploading - {id})
    case UploadAgain(id) => s.(uploading := s.uploading + {id})
    case Cancel(id, mode, leavesTable) =>
      var u := WithCancelled(s.(cancelled := s.cancelled + {id}), id, GroupOf(s, id), mode);
      if leavesTable then u.(messages := u.messages - {id}) else u
    case Vanishes(id) => s.(messages := s.messages - {id})
    case Reply(g, destroysMessages) =>
      var u := Remove(s, g);
      if destroysMessages then u.(messages := s.messages - (set id | id in Ids(s.albums[g].items))) else u
  }

  // ---------- what every run keeps ----------

  /** The ids not cancelled, in order. */
  function Remaining(ids: seq<Id>, cancelled: set<Id>): seq<Id> {
    if |ids| == 0 then []
    else Remaining(ids[..|ids| - 1], cancelled) + if ids[|ids| - 1] in cancelled then [] else [ids[|ids| - 1]]
  }

  ghost predicate ItemFits(s: State, item: Item) {
    match item.media
    case None => item.id !in s.uploaded
    case Some(media) => item.id in s.uploaded && s.uploaded[item.id] == media
  }

  ghost predicate ItemsFit(s: State, items: seq<Item>) {
    forall i :: 0 <= i < |items| ==> ItemFits(s, items[i])
  }

  /** A registered album holds exactly the items not cancelled, in their order, each with its own media. */
  ghost predicate AlbumFits(s: State, g: Group) {
    && g in s.albums && g in s.ordered
    && Ids(s.albums[g].items) == Remaining(s.ordered[g], s.cancelled)
    && ItemsFit(s, s.albums[g].items)
    && (s.albums[g].sent ==> AllFilled(s.albums[g].items))
  }

  ghost predicate AlbumsFit(s: State) { forall g :: g in s.albums ==> AlbumFits(s, g) }

  /** A group whose album is gone has no item left to wait for. */
  ghost predicate Done(s: State, g: Group) {
    g in s.ordered && forall id :: id in s.ordered[g] ==> id in s.cancelled || id in s.uploaded
  }

  ghost predicate GoneAreDone(s: State) { forall g :: g in s.ordered && g !in s.albums ==> Done(s, g) }

  /** A send carries exactly the items not cancelled by then, in order, each with the media uploaded for it. */
  ghost predicate SendFits(s: State, d: Send) {
    && d.group in s.ordered
    && (forall i :: 0 <= i < |d.parts| ==>
          d.parts[i].id in s.uploaded && d.parts[i].media == Some(s.uploaded[d.parts[i].id]))
    && Ids(d.parts) == (if d.kind == EphemeralParts then Kept(Remaining(s.ordered[d.group], d.cancelled), d.present)
                        else Remaining(s.ordered[d.group], d.cancelled))
    && (d.group in s.albums ==> s.albums[d.group].sent)
  }

  ghost predicate SendsFit(s: State) { forall i :: 0 <= i < |s.sends| ==> SendFits(s, s.sends[i]) }

  ghost predicate OneSend(sends: seq<Send>) {
    forall i, j :: 0 <= i < j < |sends| ==> sends[i].group != sends[j].group
  }

  ghost predicate GroupsDisjoint(s: State) {
    && (forall g :: g in s.ordered ==> Distinct(s.ordered[g]))
    && (forall g, h, id :: InGroup(s, id, g) && InGroup(s, id, h) ==> g == h)
  }

  ghost predicate Grouped(s: State, id: Id) { exists g :: InGroup(s, id, g) }

  ghost predicate AllGrouped(s: State) {
    && (forall id :: id in s.cancelled ==> Grouped(s, id))
    && (forall id :: id in s.uploaded ==> Grouped(s, id))
  }

  ghost predicate Inv(s: State) {
    AllGrouped(s) && GroupsDisjoint(s) && AlbumsFit(s) && GoneAreDone(s) && SendsFit(s) && OneSend(s.sends)
  }

  // ---------- lemmas about sequences ----------

  lemma {:induction false} PresentIds(items: seq<Item>, messages: set<Id>)
    ensures Ids(Present(items, messages)) == Kept(Ids(items), messages)
  {
    if |items| > 0 {
      PresentIds(items[..|items| - 1], messages);
      assert Ids(items)[..|items| - 1] == Ids(items[..|items| - 1]);
    }
  }

  lemma {:induction false} PresentAreItems(items: seq<Item>, messages: set<Id>)
    ensures forall x :: x in Present(items, messages) <==> x in items && x.id in messages
  {
    if |items| > 0 {
      PresentAreItems(items[..|items| - 1], messages);
      assert items == items[..|items| - 1] + [items[|items| - 1]];
    }
  }

  lemma {:induction false} RemainingIn(ids: seq<Id>, cancelled: set<Id>, id: Id)
    ensures id in Remaining(ids, cancelled) <==> id in ids && id !in cancelled
  {
    if |ids| > 0 {
      RemainingIn(ids[..|ids| - 1], cancelled, id);
      assert ids == ids[..|ids| - 1] + [ids[|ids| - 1]];
    }
  }

  /** Cancelling one more item takes it out of what remains, and leaves other groups alone. */
  function WithoutPlace(ids: seq<Id>, i: nat): seq<Id>
    requires i < |ids|
  {
    ids[..i] + ids[i + 1..]
  }

  lemma WithoutEarlier(ids: seq<Id>, rest: seq<Id>, i: nat)
    requires i < |ids|
    ensures WithoutPlace(ids + rest, i) == WithoutPlace(ids, i) + rest
  {
  }

  lemma WithoutLast(ids: seq<Id>, last: Id)
    ensures WithoutPlace(ids + [last], |ids|) == ids
  {
  }

  lemma {:induction false} RemainingLess(ids: seq<Id>, cancelled: set<Id>, id: Id)
    requires Distinct(ids)
    ensures id !in ids ==> Remaining(ids, cancelled + {id}) == Remaining(ids, cancelled)
    ensures forall i :: 0 <= i < |Remaining(ids, cancelled)| && Remaining(ids, cancelled)[i] == id ==>
              Remaining(ids, cancelled + {id}) == WithoutPlace(Remaining(ids, cancelled), i)
  {
    if |ids| > 0 {
      var init, last := ids[..|ids| - 1], ids[|ids| - 1];
      RemainingLess(init, cancelled, id);
      RemainingIn(init, cancelled, id);
      var r, q := Remaining(init, cancelled), Remaining(ids, cancelled);
      var rest := if last in cancelled then [] else [last];
      assert q == r + rest;
      LastIsNew(ids);
      hide WithoutPlace;
      forall i | 0 <= i < |q| && q[i] == id
        ensures Remaining(ids, cancelled + {id}) == WithoutPlace(q, i)
      {
        if i < |r| {
          assert r[i] == id && r[i] in r;
          WithoutEarlier(r, rest, i);
        } else {
          WithoutLast(r, last);
        }
      }
    }
  }

  lemma LastIsNew(ids: seq<Id>)
    requires Distinct(ids) && |ids| > 0
    ensures ids[|ids| - 1] !in ids[..|ids| - 1] && Distinct(ids[..|ids| - 1])
    ensures forall id :: id in ids <==> id in ids[..|ids| - 1] || id == ids[|ids| - 1]
  {
  }

  // ---------- the steps ----------

  /** Once every item has its media a group waits for nothing. */
  lemma FilledIsDone(s: State, g: Group)
    requires AlbumFits(s, g) && AllFilled(s.albums[g].items)
    ensures Done(s, g)
  {
    var items := s.albums[g].items;
    forall id | id in s.ordered[g] && id !in s.cancelled
      ensures id in s.uploaded
    {
      RemainingIn(s.ordered[g], s.cancelled, id);
      var i :| 0 <= i < |items| && Ids(items)[i] == id;
      assert ItemFits(s, items[i]);
    }
  }

  /** Groups stay as they are when only albums, sends or the table change. */
  lemma GroupsStay(s: State, u: State)
    requires AllGrouped(s) && GroupsDisjoint(s)
    requires u.ordered == s.ordered
    requires forall id :: id in u.cancelled ==> id in s.cancelled || Grouped(s, id)
    requires forall id :: id in u.uploaded ==> id in s.uploaded || Grouped(s, id)
    ensures AllGrouped(u) && GroupsDisjoint(u)
  {
    assert forall id, g :: InGroup(u, id, g) == InGroup(s, id, g);
    forall id | Grouped(s, id) ensures Grouped(u, id) {
      var g :| InGroup(s, id, g);
      assert InGroup(u, id, g);
    }
  }

  lemma RemoveKeeps(s: State, g: Group)
    requires Inv(s) && g in s.albums && AllFilled(s.albums[g].items)
    ensures Inv(Remove(s, g))
  {
    var u := Remove(s, g);
    FilledIsDone(s, g);
    assert AlbumsFit(u) by {
      forall h | h in u.albums ensures AlbumFits(u, h) { assert AlbumFits(s, h); }
    }
    assert SendsFit(u) by { SendsStay(s, u); }
    GroupsStay(s, u);
  }

  /** Sends stay right while the uploaded media only grow and unsent albums do not come back. */
  lemma SendsStay(s: State, u: State)
    requires SendsFit(s) && u.sends == s.sends
    requires forall g :: g in s.ordered ==> g in u.ordered && u.ordered[g] == s.ordered[g]
    requires forall id :: id in s.uploaded ==> id in u.uploaded && u.uploaded[id] == s.uploaded[id]
    requires forall g :: g in u.albums && g in s.ordered ==> g in s.albums && (s.albums[g].sent ==> u.albums[g].sent)
    ensures SendsFit(u)
  {
    forall i | 0 <= i < |u.sends|
      ensures SendFits(u, u.sends[i])
    {
      assert SendFits(s, s.sends[i]);
    }
  }

  lemma MarkSentKeeps(s: State, g: Group)
    requires Inv(s) && g in s.albums && AllFilled(s.albums[g].items)
    ensures Inv(s.(albums := s.albums[g := s.albums[g].(sent := true)]))
  {
    var u := s.(albums := s.albums[g := s.albums[g].(sent := true)]);
    assert AlbumsFit(u) by {
      forall h | h in u.albums ensures AlbumFits(u, h) { assert AlbumFits(s, h) && ItemsFit(u, u.albums[h].items); }
    }
    assert SendsFit(u) by { SendsStay(s, u); }
    GroupsStay(s, u);
  }

  /** The first send of a group whose album is now gone or marked. */
  lemma AppendSendKeeps(s: State, d: Send)
    requires Inv(s) && SendFits(s, d)
    requires forall i :: 0 <= i < |s.sends| ==> s.sends[i].group != d.group
    ensures Inv(s.(sends := s.sends + [d]))
  {
    var u := s.(sends := s.sends + [d]);
    assert AlbumsFit(u) by {
      forall h | h in u.albums ensures AlbumFits(u, h) { assert AlbumFits(s, h) && ItemsFit(u, u.albums[h].items); }
    }
    assert SendsFit(u) by {
      forall i | 0 <= i < |u.sends| ensures SendFits(u, u.sends[i]) {
        if i < |s.sends| { assert SendFits(s, s.sends[i]); }
      }
    }
    GroupsStay(s, u);
  }

  lemma NotSentYet(s: State, g: Group)
    requires SendsFit(s) && g in s.albums && !s.albums[g].sent
    ensures forall i :: 0 <= i < |s.sends| ==> s.sends[i].group != g
  {
    forall i | 0 <= i < |s.sends| ensures s.sends[i].group != g { assert SendFits(s, s.sends[i]); }
  }

  lemma PartsFit(s: State, g: Group)
    requires AlbumFits(s, g) && AllFilled(s.albums[g].items)
    ensures var items := s.albums[g].items;
            forall i :: 0 <= i < |items| ==>
              items[i].id in s.uploaded && items[i].media == Some(s.uploaded[items[i].id])
  {
    var items := s.albums[g].items;
    forall i | 0 <= i < |items|
      ensures items[i].id in s.uploaded && items[i].media == Some(s.uploaded[items[i].id])
    {
      assert ItemFits(s, items[i]);
    }
  }

  function HandedOver(s: State, g: Group, kind: Kind): (d: Send)
    requires g in s.albums
    ensures d.group == g && d.kind == kind && d.cancelled == s.cancelled && d.present == s.messages
  {
    var items := s.albums[g].items;
    Send(g, kind, if kind == EphemeralParts then Present(items, s.messages) else items, s.cancelled, s.messages)
  }

  function Marked(s: State, g: Group): State
    requires g in s.albums
  {
    s.(albums := s.albums[g := s.albums[g].(sent := true)])
  }

  lemma HandedOverParts(s: State, g: Group, kind: Kind)
    requires AlbumFits(s, g) && AllFilled(s.albums[g].items)
    ensures forall part :: part in HandedOver(s, g, kind).parts ==>
              part.id in s.uploaded && part.media == Some(s.uploaded[part.id])
  {
    PartsFit(s, g);
    PresentAreItems(s.albums[g].items, s.messages);
  }

  lemma HandedOverFits(s: State, u: State, g: Group, kind: Kind)
    requires AlbumFits(s, g) && AllFilled(s.albums[g].items)
    requires u.ordered == s.ordered && u.uploaded == s.uploaded && (g in u.albums ==> u.albums[g].sent)
    ensures SendFits(u, HandedOver(s, g, kind))
  {
    HandedOverParts(s, g, kind);
    PresentIds(s.albums[g].items, s.messages);
    var d := HandedOver(s, g, kind);
    assert Ids(d.parts) == if kind == EphemeralParts then Kept(Remaining(s.ordered[g], d.cancelled), d.present)
                           else Remaining(s.ordered[g], d.cancelled);
    hide HandedOver, Present, Remaining, Kept, Ids, AlbumFits, AllFilled;
    assert forall i :: 0 <= i < |d.parts| ==> d.parts[i] in d.parts;
  }

  /** Handing an album over: it leaves the registry or is marked as sent, and one send is recorded. */
  lemma HandOverKeeps(s: State, g: Group, kind: Kind, removed: bool)
    requires Inv(s) && g in s.albums && !s.albums[g].sent && AllFilled(s.albums[g].items)
    ensures var u := if removed then Remove(s, g) else Marked(s, g);
            Inv(u.(sends := u.sends + [HandedOver(s, g, kind)]))
  {
    var u := if removed then Remove(s, g) else Marked(s, g);
    NotSentYet(s, g);
    if removed { RemoveKeeps(s, g); } else { MarkSentKeeps(s, g); }
    assert AlbumFits(s, g);
    hide Inv, AlbumFits, SendFits, AllFilled, HandedOver;
    HandedOverFits(s, u, g, kind);
    AppendSendKeeps(u, HandedOver(s, g, kind));
  }

  lemma SendIfReadyKeeps(s: State, g: Group, mode: Mode)
    requires Inv(s) && g in s.albums
    ensures Inv(SendIfReady(s, g, mode))
  {
    var a := s.albums[g];
    assert a.items == [] ==> AllFilled(a.items);
    hide Inv, Present, AllFilled;
    if !a.sent && AllFilled(a.items) {
      RemoveKeeps(s, g);
      HandOverKeeps(s, g, EphemeralParts, true);
      HandOverKeeps(s, g, SingleMedia, true);
      HandOverKeeps(s, g, MultiMedia, false);
      HandOverKeeps(s, g, PaidMedia, false);
    }
  }

  lemma {:induction false} RemainingDistinct(ids: seq<Id>, cancelled: set<Id>)
    requires Distinct(ids)
    ensures Distinct(Remaining(ids, cancelled))
  {
    if |ids| > 0 {
      RemainingDistinct(ids[..|ids| - 1], cancelled);
      RemainingIn(ids[..|ids| - 1], cancelled, ids[|ids| - 1]);
    }
  }

  /** A message still in the table has one place in its album. */
  lemma ItemFound(s: State, g: Group, id: Id)
    requires AlbumFits(s, g) && Distinct(s.ordered[g]) && InGroup(s, id, g) && id !in s.cancelled
    ensures var items := s.albums[g].items;
            && Find(items, id) < |items|
            && forall k :: 0 <= k < |items| && k != Find(items, id) ==> items[k].id != id
  {
    var items := s.albums[g].items;
    RemainingIn(s.ordered[g], s.cancelled, id);
    RemainingDistinct(s.ordered[g], s.cancelled);
    var i :| 0 <= i < |items| && Ids(items)[i] == id;
    assert items[i].id == id;
    forall k | 0 <= k < |items| && k != Find(items, id)
      ensures items[k].id != id
    {
      assert Ids(items)[k] == items[k].id && Ids(items)[Find(items, id)] == id;
    }
  }

  /** Ids of one album are not in another group. */
  lemma AlbumIdsInGroup(s: State, g: Group, k: nat)
    requires AlbumFits(s, g) && k < |s.albums[g].items|
    ensures InGroup(s, s.albums[g].items[k].id, g) && s.albums[g].items[k].id !in s.cancelled
  {
    var id := s.albums[g].items[k].id;
    assert Ids(s.albums[g].items)[k] == id;
    RemainingIn(s.ordered[g], s.cancelled, id);
  }

  function Filled(s: State, id: Id, g: Group, media: Media): State
    requires g in s.albums && Find(s.albums[g].items, id) < |s.albums[g].items|
  {
    var a := s.albums[g];
    s.(albums := s.albums[g := a.(items := Fill(a.items, Find(a.items, id), media))],
       uploaded := s.uploaded[id := media])
  }

  /** The message waits for its media in a registered album. */
  ghost predicate Waits(s: State, id: Id, g: Group) {
    InGroup(s, id, g) && g in s.albums && id !in s.cancelled && id !in s.uploaded
  }

  lemma FilledAlbumFits(s: State, id: Id, g: Group, media: Media)
    requires Inv(s) && Waits(s, id, g)
    ensures Find(s.albums[g].items, id) < |s.albums[g].items|
    ensures s.albums[g].items[Find(s.albums[g].items, id)].media == None
    ensures AlbumFits(Filled(s, id, g, media), g)
  {
    assert AlbumFits(s, g) && Distinct(s.ordered[g]);
    ItemFound(s, g, id);
    var items := s.albums[g].items;
    var i := Find(items, id);
    assert ItemFits(s, items[i]);
    var u := Filled(s, id, g, media);
    var filled := u.albums[g].items;
    hide Inv, Remaining, Find;
    assert Ids(filled) == Ids(items);
    forall k | 0 <= k < |filled| ensures ItemFits(u, filled[k]) { assert ItemFits(s, items[k]); }
    assert !s.albums[g].sent;
  }

  lemma FilledOthersFit(s: State, id: Id, g: Group, h: Group, media: Media)
    requires Inv(s) && Waits(s, id, g) && h in s.albums && h != g
    requires Find(s.albums[g].items, id) < |s.albums[g].items|
    ensures AlbumFits(Filled(s, id, g, media), h)
  {
    var u := Filled(s, id, g, media);
    var items := s.albums[h].items;
    assert AlbumFits(s, h);
    assert !InGroup(s, id, h);
    hide Inv, Remaining, Find, Ids;
    forall k | 0 <= k < |items|
      ensures ItemFits(u, items[k])
    {
      AlbumIdsInGroup(s, h, k);
      assert ItemFits(s, items[k]);
    }
  }

  lemma FilledKeeps(s: State, id: Id, g: Group, media: Media)
    requires Inv(s) && Waits(s, id, g)
    requires Find(s.albums[g].items, id) < |s.albums[g].items|
    ensures Inv(Filled(s, id, g, media))
  {
    var u := Filled(s, id, g, media);
    FilledAlbumFits(s, id, g, media);
    forall h | h in s.albums && h != g ensures AlbumFits(u, h) { FilledOthersFit(s, id, g, h, media); }
    assert AlbumsFit(u);
    hide AlbumsFit, AlbumFits, Find;
    SendsStay(s, u);
    DoneStays(s, u);
    assert Grouped(s, id);
    GroupsStay(s, u);
  }

  /** What is done stays done while albums are kept. */
  lemma DoneStays(s: State, u: State)
    requires GoneAreDone(s) && u.ordered == s.ordered
    requires s.cancelled <= u.cancelled && s.uploaded.Keys <= u.uploaded.Keys
    requires forall g :: g in s.albums ==> g in u.albums
    ensures GoneAreDone(u)
  {
    forall g | g in u.ordered && g !in u.albums
      ensures Done(u, g)
    {
      assert Done(s, g);
      assert forall id :: id in s.uploaded ==> id in u.uploaded.Keys;
    }
  }

  // ---------- when an Assert fails ----------

  /** The media of a message fail an Assert exactly if the message was cancelled or its media arrived before. */
  lemma UploadCrashes(s: State, id: Id, g: Group, media: Media, mode: Mode)
    requires Inv(s) && InGroup(s, id, g)
    ensures WithUploaded(s, id, g, media, mode).crashed <==> s.crashed || id in s.cancelled || id in s.uploaded
    ensures Inv(WithUploaded(s, id, g, media, mode))
  {
    if Waits(s, id, g) {
      FilledAlbumFits(s, id, g, media);
      FilledKeeps(s, id, g, media);
      hide Inv, AlbumFits, Find, SendIfReady;
      SendIfReadyKeeps(Filled(s, id, g, media), g, mode);
    } else {
      UploadFinds(s, id, g);
      CrashKeeps(s);
      hide Inv, Find;
    }
  }

  /** A message that does not wait is not found, or found with its media. */
  lemma UploadFinds(s: State, id: Id, g: Group)
    requires Inv(s) && InGroup(s, id, g) && !Waits(s, id, g)
    ensures id in s.cancelled || id in s.uploaded
    ensures g in s.albums ==>
              var items := s.albums[g].items;
              Find(items, id) == |items| || items[Find(items, id)].media.Some?
  {
    if g in s.albums {
      assert AlbumFits(s, g);
      ItemThere(s, g, id);
      var items := s.albums[g].items;
      if Find(items, id) < |items| { assert ItemFits(s, items[Find(items, id)]); }
    } else {
      assert Done(s, g);
    }
  }

  /** A message of a registered album has an item there exactly if it was not cancelled. */
  lemma ItemThere(s: State, g: Group, id: Id)
    requires AlbumFits(s, g) && InGroup(s, id, g)
    ensures Find(s.albums[g].items, id) < |s.albums[g].items| <==> id !in s.cancelled
  {
    var items := s.albums[g].items;
    RemainingIn(s.ordered[g], s.cancelled, id);
    if Find(items, id) < |items| { assert Ids(items)[Find(items, id)] == id; }
    if id in Ids(items) {
      var i :| 0 <= i < |items| && Ids(items)[i] == id;
      assert items[i].id == id;
    }
  }

  /** Only the flag changes. */
  lemma CrashKeeps(s: State)
    requires Inv(s)
    ensures Inv(Crash(s))
  {
    SameKeeps(s, Crash(s));
  }

  /** The table, the uploads under way and the flag do not matter. */
  lemma SameKeeps(s: State, u: State)
    requires Inv(s) && u.albums == s.albums && u.ordered == s.ordered && u.uploaded == s.uploaded
    requires u.cancelled == s.cancelled && u.sends == s.sends
    ensures Inv(u)
  {
    AlbumsStay(s, u);
    hide AlbumsFit, AlbumFits;
    SendsStay(s, u);
    DoneStays(s, u);
    GroupsStay(s, u);
  }

  lemma AlbumsStay(s: State, u: State)
    requires AlbumsFit(s) && u.ordered == s.ordered && u.uploaded == s.uploaded && u.cancelled == s.cancelled
    requires forall g :: g in u.albums ==> g in s.albums && u.albums[g] == s.albums[g]
    ensures AlbumsFit(u)
  {
    forall h | h in u.albums
      ensures AlbumFits(u, h)
    {
      assert AlbumFits(s, h);
      var items := u.albums[h].items;
      forall k | 0 <= k < |items| ensures ItemFits(u, items[k]) { assert ItemFits(s, items[k]); }
    }
  }

  // ---------- cancelling ----------

  function Dropped(s: State, id: Id, g: Group): State {
    var c := s.(cancelled := s.cancelled + {id});
    if g !in s.albums then c
    else
      var a := s.albums[g];
      var i := Find(a.items, id);
      if i == |a.items| then c else c.(albums := s.albums[g := a.(items := a.items[..i] + a.items[i + 1..])])
  }

  lemma DroppedAlbumFits(s: State, id: Id, g: Group)
    requires Inv(s) && InGroup(s, id, g) && g in s.albums && id !in s.cancelled
    ensures Find(s.albums[g].items, id) < |s.albums[g].items|
    ensures AlbumFits(Dropped(s, id, g), g)
  {
    assert AlbumFits(s, g) && Distinct(s.ordered[g]);
    hide Inv, Find;
    ItemFound(s, g, id);
    RemainingLess(s.ordered[g], s.cancelled, id);
    var items, i := s.albums[g].items, Find(s.albums[g].items, id);
    DroppedIds(items, i);
    DroppedItemsFit(s, Dropped(s, id, g), items, i);
    hide ItemsFit, AllFilled, Ids, Remaining;
  }

  lemma DroppedIds(items: seq<Item>, i: nat)
    requires i < |items|
    ensures Ids(items)[i] == items[i].id
    ensures Ids(items[..i] + items[i + 1..]) == Ids(items)[..i] + Ids(items)[i + 1..]
    ensures AllFilled(items) ==> AllFilled(items[..i] + items[i + 1..])
  {
  }

  lemma DroppedItemsFit(s: State, u: State, items: seq<Item>, i: nat)
    requires ItemsFit(s, items) && i < |items| && u.uploaded == s.uploaded
    ensures ItemsFit(u, items[..i] + items[i + 1..])
  {
    var left := items[..i] + items[i + 1..];
    forall k | 0 <= k < |left|
      ensures ItemFits(u, left[k])
    {
      assert left[k] == if k < i then items[k] else items[k + 1];
      assert ItemFits(s, left[k]);
    }
  }

  lemma DroppedOthersFit(s: State, id: Id, g: Group, h: Group)
    requires Inv(s) && InGroup(s, id, g) && h in s.albums && h != g
    ensures AlbumFits(Dropped(s, id, g), h)
  {
    var u := Dropped(s, id, g);
    var items := s.albums[h].items;
    assert AlbumFits(s, h) && Distinct(s.ordered[h]);
    assert !InGroup(s, id, h);
    hide Inv, Find, Ids;
    RemainingLess(s.ordered[h], s.cancelled, id);
    hide Remaining;
    forall k | 0 <= k < |items| ensures ItemFits(u, items[k]) { assert ItemFits(s, items[k]); }
  }

  lemma DroppedKeeps(s: State, id: Id, g: Group)
    requires Inv(s) && InGroup(s, id, g) && (g in s.albums ==> id !in s.cancelled)
    ensures Inv(Dropped(s, id, g))
  {
    var u := Dropped(s, id, g);
    if g in s.albums { DroppedAlbumFits(s, id, g); }
    forall h | h in s.albums && h != g ensures AlbumFits(u, h) { DroppedOthersFit(s, id, g, h); }
    assert AlbumsFit(u);
    hide AlbumsFit, AlbumFits, Find;
    SendsStay(s, u);
    DoneStays(s, u);
    assert Grouped(s, id);
    GroupsStay(s, u);
  }

  /** A cancel fails an Assert exactly if the album is registered and the message was cancelled before. */
  lemma CancelCrashes(s: State, id: Id, g: Group, mode: Mode)
    requires Inv(s) && InGroup(s, id, g)
    ensures var u := WithCancelled(s.(cancelled := s.cancelled + {id}), id, g, mode);
            && (u.crashed <==> s.crashed || (g in s.albums && id in s.cancelled))
            && Inv(u)
  {
    hide SendIfReady;
    if g !in s.albums {
      DroppedKeeps(s, id, g);
    } else if id in s.cancelled {
      CancelTwice(s, id, g, mode);
    } else {
      DroppedKeeps(s, id, g);
      DroppedAlbumFits(s, id, g);
      hide Inv, AlbumFits, Find;
      SendIfReadyKeeps(Dropped(s, id, g), g, mode);
    }
    hide Inv;
  }

  lemma CancelTwice(s: State, id: Id, g: Group, mode: Mode)
    requires Inv(s) && InGroup(s, id, g) && g in s.albums && id in s.cancelled
    ensures var c := s.(cancelled := s.cancelled + {id});
            WithCancelled(c, id, g, mode) == Crash(c) && Inv(Crash(c))
  {
    var c := s.(cancelled := s.cancelled + {id});
    assert AlbumFits(s, g) && c.cancelled == s.cancelled;
    ItemThere(s, g, id);
    hide AlbumFits, Find;
    SameKeeps(s, Crash(c));
  }

  // ---------- starting, failing and answers ----------

  lemma {:induction false} RemainingAll(ids: seq<Id>, cancelled: set<Id>)
    requires forall id :: id in ids ==> id !in cancelled
    ensures Remaining(ids, cancelled) == ids
  {
    if |ids| > 0 {
      assert ids == ids[..|ids| - 1] + [ids[|ids| - 1]];
      RemainingAll(ids[..|ids| - 1], cancelled);
    }
  }

  function Fresh(ids: seq<Id>): (r: seq<Item>)
    ensures |r| == |ids|
  {
    seq(|ids|, i requires 0 <= i < |ids| => Item(ids[i], None))
  }

  function Started(s: State, g: Group, ids: seq<Id>): State {
    s.(albums := s.albums[g := Album(Fresh(ids), false)], ordered := s.ordered[g := ids],
       messages := s.messages + (set id | id in ids), uploading := s.uploading + (set id | id in ids))
  }

  lemma StartedGroups(s: State, g: Group, ids: seq<Id>)
    requires Inv(s) && Possible(s, Start(g, ids))
    ensures AllGrouped(Started(s, g, ids)) && GroupsDisjoint(Started(s, g, ids))
    ensures forall id :: id in ids ==> id !in s.cancelled && id !in s.uploaded
  {
    var u := Started(s, g, ids);
    hide AlbumsFit, SendsFit, GoneAreDone;
    assert forall id, h :: h != g ==> InGroup(u, id, h) == InGroup(s, id, h);
    assert forall id :: InGroup(u, id, g) <==> id in ids;
    forall id | Grouped(s, id)
      ensures Grouped(u, id)
    {
      var h :| InGroup(s, id, h);
      assert InGroup(u, id, h);
    }
  }

  lemma StartedAlbums(s: State, g: Group, ids: seq<Id>)
    requires Inv(s) && Possible(s, Start(g, ids))
    ensures AlbumsFit(Started(s, g, ids))
  {
    var u := Started(s, g, ids);
    StartedGroups(s, g, ids);
    forall h | h in u.albums
      ensures AlbumFits(u, h)
    {
      if h == g {
        RemainingAll(ids, s.cancelled);
        assert Ids(Fresh(ids)) == ids;
      } else {
        assert AlbumFits(s, h);
        var items := s.albums[h].items;
        forall k | 0 <= k < |items| ensures ItemFits(u, items[k]) { assert ItemFits(s, items[k]); }
      }
    }
  }

  lemma StartKeeps(s: State, g: Group, ids: seq<Id>)
    requires Inv(s) && Possible(s, Start(g, ids))
    ensures Inv(Started(s, g, ids))
  {
    var u := Started(s, g, ids);
    StartedGroups(s, g, ids);
    StartedAlbums(s, g, ids);
    hide AlbumsFit, AlbumFits, AllGrouped, GroupsDisjoint, Fresh;
    SendsStay(s, u);
    assert GoneAreDone(u) by {
      forall h | h in u.ordered && h !in u.albums ensures Done(u, h) { assert Done(s, h); }
    }
  }

  /** The events that fail an Assert. */
  ghost predicate Fails(s: State, e: Event) {
    match e
    case UploadDone(id, _, valid, _) => valid && id in s.messages && (id in s.cancelled || id in s.uploaded)
    case Cancel(id, _, _) => id in s.cancelled && exists g :: InGroup(s, id, g) && g in s.albums
    case _ => false
  }

  /** Every possible event keeps the invariant, and fails an Assert exactly if it is one of those. */
  lemma StepKeeps(s: State, e: Event)
    requires Inv(s) && Possible(s, e)
    ensures Inv(Step(s, e))
    ensures Step(s, e).crashed <==> s.crashed || Fails(s, e)
  {
    match e
    case Start(g, ids) =>
      StartKeeps(s, g, ids);
      assert Step(s, e) == Started(s, g, ids);
      hide Inv;
    case UploadDone(id, media, valid, mode) =>
      var g, u := GroupOf(s, id), s.(uploading := s.uploading - {id});
      hide WithUploaded;
      SameKeeps(s, u);
      hide Inv;
      assert InGroup(u, id, g);
      UploadCrashes(u, id, g, media, mode);
    case UploadFails(id) => SameKeeps(s, Step(s, e)); hide Inv;
    case UploadAgain(id) => SameKeeps(s, Step(s, e)); hide Inv;
    case Cancel(id, mode, _) => CancelStep(s, e); hide Inv, WithCancelled;
    case Vanishes(id) => SameKeeps(s, Step(s, e)); hide Inv;
    case Reply(g, destroysMessages) =>
      assert AlbumFits(s, g);
      RemoveKeeps(s, g);
      hide Ids, AlbumFits;
      SameKeeps(Remove(s, g), Step(s, e));
      hide Inv;
  }

  lemma OneGroup(s: State, id: Id, g: Group)
    requires Inv(s) && InGroup(s, id, g)
    ensures (exists h :: InGroup(s, id, h) && h in s.albums) <==> g in s.albums
  {
  }

  lemma CancelStep(s: State, e: Event)
    requires Inv(s) && e.Cancel? && Possible(s, e)
    ensures Inv(Step(s, e))
    ensures Step(s, e).crashed <==> s.crashed || Fails(s, e)
  {
    hide Inv, WithCancelled;
    var g := GroupOf(s, e.id);
    var u := WithCancelled(s.(cancelled := s.cancelled + {e.id}), e.id, g, e.mode);
    OneGroup(s, e.id, g);
    CancelCrashes(s, e.id, g, e.mode);
    SameKeeps(u, Step(s, e));
  }

  // ---------- runs ----------

  /** A run from the initial state: each state comes from the one before by a possible event. */
  ghost predicate IsRun(states: seq<State>, events: seq<Event>) {
    && |states| == |events| + 1
    && states[0] == INITIAL
    && forall i :: 0 <= i < |events| ==> Possible(states[i], events[i]) && states[i + 1] == Step(states[i], events[i])
  }

  lemma {:induction false} RunKeeps(states: seq<State>, events: seq<Event>, n: nat)
    requires IsRun(states, events) && n < |states|
    ensures Inv(states[n])
  {
    if n > 0 {
      hide Step, Inv, Possible;
      RunKeeps(states, events, n - 1);
      StepKeeps(states[n - 1], events[n - 1]);
    }
  }

  /**
    In every run a group is sent at most once, and a send carries exactly the items not cancelled by then, in order,
    each with its media.
   */
  lemma GroupsAreSentOnce(states: seq<State>, events: seq<Event>, n: nat)
    requires IsRun(states, events) && n < |states|
    ensures OneSend(states[n].sends) && SendsFit(states[n])
  {
    RunKeeps(states, events, n);
  }

  ghost predicate FailsBefore(states: seq<State>, events: seq<Event>, n: nat)
    requires n <= |events| <= |states|
  {
    exists k :: 0 <= k < n && Fails(states[k], events[k])
  }

  /**
    In every run an Assert has failed exactly if a valid upload answered for a message in the table that was cancelled
    or had its media already, or a message of a registered album was cancelled twice.
   */
  lemma {:induction false} AssertsFailExactly(states: seq<State>, events: seq<Event>, n: nat)
    requires IsRun(states, events) && n < |states|
    ensures states[n].crashed <==> FailsBefore(states, events, n)
  {
    hide Step, Inv, Possible, Fails;
    if n > 0 {
      AssertsFailExactly(states, events, n - 1);
      RunKeeps(states, events, n - 1);
      StepKeeps(states[n - 1], events[n - 1]);
    }
  }

  // ---------- which way an album goes ----------

  ghost predicate AllUploaded(ids: seq<Id>, uploaded: map<Id, Media>) { forall id :: id in ids ==> id in uploaded }

  ghost predicate SomeThere(ids: seq<Id>, messages: set<Id>) { exists id :: id in ids && id in messages }

  /** The way fits the mode and the number of items; the album stays registered only for the two that are answered. */
  ghost predicate GoesRight(u: State, d: Send, g: Group, mode: Mode, count: nat) {
    && d.group == g && d.cancelled == u.cancelled
    && (d.kind == PaidMedia <==> mode == Paid)
    && (d.kind == EphemeralParts <==> mode == ToEphemeral)
    && (d.kind == SingleMedia <==> mode == Usual && count == 1)
    && (d.kind == MultiMedia <==> mode == Usual && count >= 2)
    && (g in u.albums <==> d.kind == PaidMedia || d.kind == MultiMedia)
    && (g in u.albums ==> u.albums[g].sent)
  }

  /**
    What becomes of an album whose item was filled or cancelled: it is forgotten when no item remains, or none that a
    message shows; it waits while media is missing or the callback refuses; otherwise it goes.
   */
  ghost predicate GoesOn(s: State, u: State, g: Group, mode: Mode, messages: set<Id>)
    requires g in s.albums && g in u.ordered
  {
    var ids := Remaining(u.ordered[g], u.cancelled);
    && (forall h :: h != g ==> (h in u.albums <==> h in s.albums) && (h in s.albums ==> u.albums[h] == s.albums[h]))
    && if s.albums[g].sent then u.sends == s.sends && g in u.albums && u.albums[g].sent
       else if ids == [] || (AllUploaded(ids, u.uploaded) && !SomeThere(ids, messages)) then
         u.sends == s.sends && g !in u.albums
       else if !AllUploaded(ids, u.uploaded) || mode == Refused then
         u.sends == s.sends && g in u.albums && !u.albums[g].sent
       else
         && |u.sends| == |s.sends| + 1 && s.sends == u.sends[..|s.sends|]
         && GoesRight(u, u.sends[|s.sends|], g, mode, |ids|)
         && u.sends[|s.sends|].present == messages
  }

  lemma {:induction false} NonePresent(items: seq<Item>, messages: set<Id>)
    ensures Present(items, messages) == [] <==> !SomeThere(Ids(items), messages)
  {
    PresentIds(items, messages);
    KeptNone(Ids(items), messages);
  }

  lemma {:induction false} KeptNone(ids: seq<Id>, keep: set<Id>)
    ensures Kept(ids, keep) == [] <==> !SomeThere(ids, keep)
  {
    if |ids| > 0 {
      var init, last := ids[..|ids| - 1], ids[|ids| - 1];
      KeptNone(init, keep);
      assert ids == init + [last];
    }
  }

  lemma FilledAreUploaded(s: State, items: seq<Item>)
    requires ItemsFit(s, items)
    ensures AllFilled(items) <==> AllUploaded(Ids(items), s.uploaded)
  {
    forall i | 0 <= i < |items|
      ensures items[i].media.Some? <==> Ids(items)[i] in s.uploaded
    {
      assert ItemFits(s, items[i]);
    }
  }

  lemma SendGoes(s: State, g: Group, mode: Mode)
    requires AlbumFits(s, g)
    ensures GoesOn(s, SendIfReady(s, g, mode), g, mode, s.messages)
  {
    var items := s.albums[g].items;
    NonePresent(items, s.messages);
    FilledAreUploaded(s, items);
    assert |Ids(items)| == |items|;
    hide Ids, Present, AllFilled, AllUploaded, SomeThere, ItemsFit, Remaining;
  }

  /** Only the album that is touched and the history change before the check. */
  lemma TouchedGoes(s: State, v: State, u: State, g: Group, mode: Mode)
    requires g in s.albums && g in v.albums && g in u.ordered && GoesOn(v, u, g, mode, v.messages)
    requires v.sends == s.sends && v.albums[g].sent == s.albums[g].sent
    requires forall h :: h != g ==> (h in v.albums <==> h in s.albums) && (h in s.albums ==> v.albums[h] == s.albums[h])
    ensures GoesOn(s, u, g, mode, v.messages)
  {
  }

  lemma UploadGoes(s: State, id: Id, g: Group, media: Media, mode: Mode)
    requires Inv(s) && Waits(s, id, g)
    ensures var u := WithUploaded(s, id, g, media, mode);
            && u.uploaded == s.uploaded[id := media] && u.cancelled == s.cancelled && u.ordered == s.ordered
            && GoesOn(s, u, g, mode, s.messages)
  {
    FilledAlbumFits(s, id, g, media);
    hide Inv, AlbumFits, Find, SendIfReady, GoesOn;
    var v := Filled(s, id, g, media);
    SendGoes(v, g, mode);
    TouchedGoes(s, v, SendIfReady(v, g, mode), g, mode);
  }

  lemma CancelGoes(s: State, id: Id, g: Group, mode: Mode)
    requires Inv(s) && InGroup(s, id, g) && g in s.albums && id !in s.cancelled
    ensures var u := WithCancelled(s.(cancelled := s.cancelled + {id}), id, g, mode);
            && u.uploaded == s.uploaded && u.cancelled == s.cancelled + {id} && u.ordered == s.ordered
            && GoesOn(s, u, g, mode, s.messages)
  {
    DroppedAlbumFits(s, id, g);
    hide Inv, AlbumFits, Find, SendIfReady, GoesOn;
    var v := Dropped(s, id, g);
    SendGoes(v, g, mode);
    TouchedGoes(s, v, SendIfReady(v, g, mode), g, mode);
  }

  lemma GoesOnAnyway(s: State, u: State, w: State, g: Group, mode: Mode, messages: set<Id>)
    requires g in s.albums && g in u.ordered && GoesOn(s, u, g, mode, messages)
    requires w == u.(messages := w.messages)
    ensures GoesOn(s, w, g, mode, messages)
  {
  }

  /** The event is an upload that answers for a waiting item, or a cancellation of one of a registered album. */
  ghost predicate Touches(s: State, e: Event, g: Group) {
    match e
    case UploadDone(id, _, valid, _) => valid && id in s.messages && Waits(s, id, g)
    case Cancel(id, _, _) => InGroup(s, id, g) && g in s.albums && id !in s.cancelled
    case _ => false
  }

  /**
    In every run an album is sent, forgotten or kept waiting by the events that touch it, as its remaining items, their
    media, the messages in the table and the mode say; and no other event sends anything.
   */
  lemma AlbumsGoRight(states: seq<State>, events: seq<Event>, n: nat, g: Group)
    requires IsRun(states, events) && n < |events|
    ensures var s, u, e := states[n], states[n + 1], events[n];
            && (Touches(s, e, g) ==> g in s.albums && g in u.ordered && GoesOn(s, u, g, e.mode, s.messages))
            && ((forall h :: !Touches(s, e, h)) ==> u.sends == s.sends)
  {
    RunKeeps(states, events, n);
    assert states[n + 1] == Step(states[n], events[n]) && Possible(states[n], events[n]);
    hide IsRun, Inv, Step, Possible, GoesOn;
    if Touches(states[n], events[n], g) { StepGoes(states[n], events[n], g); }
    if forall h :: !Touches(states[n], events[n], h) { StepSends(states[n], events[n]); }
  }

  lemma TheGroup(s: State, id: Id, g: Group)
    requires Inv(s) && InGroup(s, id, g)
    ensures GroupOf(s, id) == g
  {
  }

  lemma StepGoes(s: State, e: Event, g: Group)
    requires Inv(s) && Possible(s, e) && Touches(s, e, g)
    ensures g in s.albums && g in Step(s, e).ordered && GoesOn(s, Step(s, e), g, e.mode, s.messages)
  {
    TheGroup(s, e.id, g);
    match e
    case UploadDone(id, media, valid, mode) =>
      var v := s.(uploading := s.uploading - {id});
      hide WithUploaded, GoesOn;
      SameKeeps(s, v);
      hide Inv;
      assert Waits(v, id, g);
      UploadGoes(v, id, g, media, mode);
      TouchedGoes(s, v, WithUploaded(v, id, g, media, mode), g, mode);
    case Cancel(id, mode, _) =>
      hide Inv, WithCancelled, GoesOn;
      CancelGoes(s, id, g, mode);
      var u := WithCancelled(s.(cancelled := s.cancelled + {id}), id, g, mode);
      GoesOnAnyway(s, u, Step(s, e), g, mode, s.messages);
  }

  lemma StepSends(s: State, e: Event)
    requires Inv(s) && Possible(s, e) && forall h :: !Touches(s, e, h)
    ensures Step(s, e).sends == s.sends
  {
    match e
    case UploadDone(id, media, valid, mode) =>
      var g, v := GroupOf(s, id), s.(uploading := s.uploading - {id});
      assert !Touches(s, e, g);
      if valid && id in s.messages {
        SameKeeps(s, v);
        hide Inv, Find;
        UploadFinds(v, id, g);
      }
    case Cancel(id, mode, _) =>
      var g := GroupOf(s, id);
      assert !Touches(s, e, g);
      hide Find;
      if g in s.albums { CancelTwice(s, id, g, mode); }
    case _ =>
  }

  /** What the other events do: an album is registered with its messages in order, and a reply takes it out. */
  lemma AlbumsComeAndGo(states: seq<State>, events: seq<Event>, n: nat)
    requires IsRun(states, events) && n < |events|
    ensures var s, u := states[n], states[n + 1];
            match events[n]
            case Start(g, ids) =>
              && g !in s.albums && u.albums.Keys == s.albums.Keys + {g} && !u.albums[g].sent
              && Ids(u.albums[g].items) == ids && u.ordered == s.ordered[g := ids]
              && forall id :: id in ids ==> id in u.messages && id in u.uploading
            case UploadDone(id, media, valid, _) =>
              && u.uploading == s.uploading - {id} && u.cancelled == s.cancelled
              && (valid && id in s.messages && !Fails(s, events[n]) ==> u.uploaded == s.uploaded[id := media])
            case Cancel(id, _, leavesTable) =>
              && u.cancelled == s.cancelled + {id} && u.uploaded == s.uploaded
              && (leavesTable ==> id !in u.messages)
            case Vanishes(id) => id !in u.messages && u.albums == s.albums
            case Reply(g, _) => u.albums == s.albums - {g}
            case _ => u.albums == s.albums
  {
    RunKeeps(states, events, n);
    var s, e := states[n], events[n];
    match e
    case Start(g, ids) =>
      StartedIds(s, g, ids);
      assert states[n + 1] == Started(s, g, ids);
      hide Inv;
    case UploadDone(_, _, _, _) => hide Inv, WithUploaded; UploadArrives(s, e);
    case Cancel(id, mode, _) => hide Inv, Find, SendIfReady;
    case _ => hide Inv;
  }

  lemma UploadArrives(s: State, e: Event)
    requires Inv(s) && Possible(s, e) && e.UploadDone?
    ensures Step(s, e).uploading == s.uploading - {e.id} && Step(s, e).cancelled == s.cancelled
    ensures e.valid && e.id in s.messages && !Fails(s, e) ==> Step(s, e).uploaded == s.uploaded[e.id := e.media]
  {
    var g, v := GroupOf(s, e.id), s.(uploading := s.uploading - {e.id});
    SameKeeps(s, v);
    if e.id !in s.cancelled && e.id !in s.uploaded { WaitsUnlessDone(s, e.id, g); }
    hide Inv, SendIfReady, Find, GoesOn;
    if Waits(v, e.id, g) {
      hide WithUploaded;
      UploadGoes(v, e.id, g, e.media, e.mode);
    }
  }

  lemma WaitsUnlessDone(s: State, id: Id, g: Group)
    requires Inv(s) && InGroup(s, id, g) && id !in s.cancelled && id !in s.uploaded
    ensures Waits(s, id, g)
  {
    assert g !in s.albums ==> Done(s, g);
  }

  lemma StartedIds(s: State, g: Group, ids: seq<Id>)
    requires Inv(s) && Possible(s, Start(g, ids))
    ensures g !in s.albums && Ids(Fresh(ids)) == ids && Started(s, g, ids).albums.Keys == s.albums.Keys + {g}
  {
    assert g in s.albums ==> AlbumFits(s, g);
  }

  // ---------- runs in which none does ----------

  /** Cancelling takes the message out of the table, and no upload completes twice. */
  predicate Disciplined(e: Event) { !e.UploadAgain? && (e.Cancel? ==> e.leavesTable) }

  /** Only messages still awaited are in the table or uploaded. */
  ghost predicate Orderly(s: State) {
    && (forall id :: id in s.cancelled ==> id !in s.messages)
    && (forall id :: id in s.uploaded ==> id !in s.uploading)
  }

  lemma OrderlyKeeps(s: State, e: Event)
    requires Inv(s) && Orderly(s) && Possible(s, e) && Disciplined(e)
    ensures Orderly(Step(s, e)) && !Fails(s, e)
  {
    hide Inv, SendIfReady;
    match e
    case Start(g, ids) => StartOrderly(s, g, ids); assert Step(s, e) == Started(s, g, ids);
    case UploadDone(id, media, valid, mode) => hide Find;
    case UploadFails(id) =>
    case Cancel(id, mode, _) => hide Find;
    case Vanishes(id) =>
    case Reply(g, destroysMessages) => hide Ids;
  }

  lemma StartOrderly(s: State, g: Group, ids: seq<Id>)
    requires Inv(s) && Orderly(s) && Possible(s, Start(g, ids))
    ensures Orderly(Started(s, g, ids))
  {
    StartedGroups(s, g, ids);
    hide Inv;
  }

  lemma {:induction false} OrderlyRuns(states: seq<State>, events: seq<Event>, n: nat)
    requires IsRun(states, events) && n < |states|
    requires forall i :: 0 <= i < |events| ==> Disciplined(events[i])
    ensures Orderly(states[n])
  {
    hide Step, Inv, Possible;
    if n > 0 {
      OrderlyRuns(states, events, n - 1);
      RunKeeps(states, events, n - 1);
      OrderlyKeeps(states[n - 1], events[n - 1]);
    }
  }

  /** When cancelling takes the message out of the table and no upload completes twice, no Assert fails. */
  lemma DisciplinedRunsAreSafe(states: seq<State>, events: seq<Event>, n: nat)
    requires IsRun(states, events) && n < |states|
    requires forall i :: 0 <= i < |events| ==> Disciplined(events[i])
    ensures !states[n].crashed
  {
    AssertsFailExactly(states, events, n);
    hide Step, Inv, Possible, Fails;
    forall k | 0 <= k < n
      ensures !Fails(states[k], events[k])
    {
      OrderlyRuns(states, events, k);
      RunKeeps(states, events, k);
      OrderlyKeeps(states[k], events[k]);
    }
  }

  lemma RunStep(states: seq<State>, events: seq<Event>, n: nat)
    requires IsRun(states, events) && n + 1 < |states|
    ensures n < |events| && Possible(states[n], events[n]) && states[n + 1] == Step(states[n], events[n])
  {
    hide Step, Possible;
  }

  lemma StepAddsSends(s: State, e: Event)
    requires Possible(s, e)
    ensures s.sends <= Step(s, e).sends
  {
    hide WithUploaded, WithCancelled;
  }

  lemma {:induction false} SendsAreKept(states: seq<State>, events: seq<Event>, i: nat, j: nat)
    requires IsRun(states, events) && i <= j < |states|
    ensures states[i].sends <= states[j].sends
  {
    hide *;
    if i < j {
      SendsAreKept(states, events, i, j - 1);
      RunStep(states, events, j - 1);
      StepAddsSends(states[j - 1], events[j - 1]);
    }
  }

  /** An album still to be sent waits for at least one upload. */
  ghost predicate AllWait(s: State) {
    forall g :: g in s.albums && !s.albums[g].sent ==> !AllFilled(s.albums[g].items)
  }

  predicate NotRefused(e: Event) {
    match e
    case UploadDone(_, _, _, mode) => mode != Refused
    case Cancel(_, mode, _) => mode != Refused
    case _ => true
  }

  lemma SendIfReadyLeavesNone(s: State, g: Group, mode: Mode)
    requires g in s.albums && mode != Refused
    requires forall h :: h in s.albums && h != g && !s.albums[h].sent ==> !AllFilled(s.albums[h].items)
    ensures AllWait(SendIfReady(s, g, mode))
  {
    hide Present;
  }

  lemma UploadLeavesNone(s: State, id: Id, g: Group, media: Media, mode: Mode)
    requires AllWait(s) && mode != Refused
    ensures AllWait(WithUploaded(s, id, g, media, mode))
  {
    hide SendIfReady, Find;
    if g in s.albums && Find(s.albums[g].items, id) < |s.albums[g].items| {
      SendIfReadyLeavesNone(Filled(s, id, g, media), g, mode);
    }
  }

  lemma CancelLeavesNone(s: State, id: Id, g: Group, mode: Mode)
    requires AllWait(s) && mode != Refused
    ensures AllWait(WithCancelled(s.(cancelled := s.cancelled + {id}), id, g, mode))
  {
    hide SendIfReady, Find;
    if g in s.albums && Find(s.albums[g].items, id) < |s.albums[g].items| {
      SendIfReadyLeavesNone(Dropped(s, id, g), g, mode);
    }
  }

  lemma WaitKeeps(s: State, e: Event)
    requires AllWait(s) && Possible(s, e) && NotRefused(e)
    ensures AllWait(Step(s, e))
  {
    hide WithUploaded, WithCancelled;
    match e
    case UploadDone(id, media, valid, mode) =>
      UploadLeavesNone(s.(uploading := s.uploading - {id}), id, GroupOf(s, id), media, mode);
    case Cancel(id, mode, _) => CancelLeavesNone(s, id, GroupOf(s, id), mode);
    case Start(g, ids) =>
      assert Step(s, e) == Started(s, g, ids);
      assert Fresh(ids)[0].media == None;
    case _ =>
  }

  /** Unless the callback refuses, an album is never left with all its media but unsent. */
  lemma {:induction false} ReadyAlbumsGo(states: seq<State>, events: seq<Event>, n: nat)
    requires IsRun(states, events) && n < |states|
    requires forall i :: 0 <= i < |events| ==> NotRefused(events[i])
    ensures AllWait(states[n])
  {
    if n > 0 {
      ReadyAlbumsGo(states, events, n - 1);
      WaitKeeps(states[n - 1], events[n - 1]);
    }
  }

  // ---------- both conditions are needed ----------

  /** The events of a run that starts one album of one message, 1. */
  function LateUpload(media: Media): seq<Event> {
    [Start(0, [1]), Cancel(1, Usual, false), UploadDone(1, media, true, Usual)]
  }

  function SecondUpload(media: Media): seq<Event> {
    [Start(0, [1]), UploadDone(1, media, true, Usual), UploadAgain(1), UploadDone(1, media, true, Usual)]
  }

  function OneAlbum(): State {
    State(map[0 := Album([Item(1, None)], false)], map[0 := [1]], {1}, {1}, map[], {}, [], false)
  }

  lemma OneAlbumStarts()
    ensures Possible(INITIAL, Start(0, [1])) && Step(INITIAL, Start(0, [1])) == OneAlbum()
    ensures InGroup(OneAlbum(), 1, 0) && GroupOf(OneAlbum(), 1) == 0
  {
    assert (set id | id in [1]) == {1};
    assert InGroup(OneAlbum(), 1, 0);
    assert seq(1, i requires 0 <= i < 1 => Item([1][i], None)) == [Item(1, None)];
  }

  function CancelledAlone(): State { State(map[], map[0 := [1]], {1}, {1}, map[], {1}, [], false) }

  lemma AloneIsRemoved()
    ensures WithCancelled(OneAlbum().(cancelled := {1}), 1, 0, Usual) == CancelledAlone()
  {
    assert [Item(1, None)][..0] + [Item(1, None)][1..] == [];
    assert OneAlbum().albums[0 := Album([], false)] - {0} == map[];
  }

  /** A cancelled message that stays in the table: its upload finds the album gone. */
  lemma CancelledMessageMustLeave(media: Media)
    ensures exists states: seq<State> :: IsRun(states, LateUpload(media)) && states[3].crashed
  {
    OneAlbumStarts();
    AloneIsRemoved();
    var s1, s2 := OneAlbum(), CancelledAlone();
    assert s1.cancelled + {1} == {1};
    hide Find, Present, AllFilled, SendIfReady, WithCancelled;
    assert Step(s1, Cancel(1, Usual, false)) == s2;
    assert InGroup(s2, 1, 0) && GroupOf(s2, 1) == 0;
    var s3 := Step(s2, UploadDone(1, media, true, Usual));
    assert IsRun([INITIAL, s1, s2, s3], LateUpload(media));
  }

  function SentAlone(media: Media): State {
    State(map[], map[0 := [1]], {1}, {}, map[1 := media], {},
      [Send(0, SingleMedia, [Item(1, Some(media))], {}, {1})], false)
  }

  lemma AloneIsSent(media: Media)
    ensures WithUploaded(OneAlbum().(uploading := {}), 1, 0, media, Usual) == SentAlone(media)
  {
    var part := Item(1, Some(media));
    var f := State(map[0 := Album([part], false)], map[0 := [1]], {1}, {}, map[1 := media], {}, [], false);
    assert Present([part], {1}) == [part];
    assert Find([Item(1, None)], 1) == 0 && [Item(1, None)][0 := part] == [part];
    assert Filled(OneAlbum().(uploading := {}), 1, 0, media) == f;
    assert f.albums - {0} == map[];
  }

  /** A second upload of a message already sent finds the album gone. */
  lemma UploadsMustBeSingle(media: Media)
    ensures exists states: seq<State> :: IsRun(states, SecondUpload(media)) && states[4].crashed
  {
    OneAlbumStarts();
    AloneIsSent(media);
    var s1, s2 := OneAlbum(), SentAlone(media);
    var s3 := s2.(uploading := {1});
    assert InGroup(s2, 1, 0) && InGroup(s3, 1, 0);
    assert s1.uploading - {1} == {};
    hide Find, Present, AllFilled, SendIfReady;
    assert Step(s1, UploadDone(1, media, true, Usual)) == s2;
    assert GroupOf(s3, 1) == 0;
    assert Step(s2, UploadAgain(1)) == s3;
    var s4 := Step(s3, UploadDone(1, media, true, Usual));
    assert IsRun([INITIAL, s1, s2, s3, s4], SecondUpload(media));
  }

  // ---------- the object ----------

  /** What the object does not keep: the groups as they were started, and the uploads. */
  datatype History = History(ordered: map<Group, seq<Id>>, uploading: set<Id>, uploaded: map<Id, Media>,
        cancelled: set<Id>)

  /** ApiWrap, as far as albums go: _sendingAlbums and the table of messages, with a log of what was sent. */
  class AlbumSender {
    var sendingAlbums: map<Group, Album>
    var messages: set<Id>
    var crashed: bool
    ghost var sends: seq<Send>
    ghost var history: History

    ghost function Abs(): State
      reads this
    {
      State(sendingAlbums, history.ordered, messages, history.uploading, history.uploaded, history.cancelled, sends,
          crashed)
    }

    constructor ()
      ensures Abs() == INITIAL
    {
      sendingAlbums, messages, crashed := map[], {}, false;
      sends, history := [], History(map[], {}, map[], {});
    }

    /** The parts whose message still exists go to the ephemeral message one by one. */
    method SendToEphemeral(g: Group, items: seq<Item>)
      requires AllFilled(items)
      modifies this
      ensures Abs() == Remove(old(Abs()), g).(
                sends := old(sends) + [Send(g, EphemeralParts, Present(items, messages), history.cancelled, messages)])
    {
      var parts: seq<Item> := [];
      for i := 0 to |items|
        invariant Abs() == old(Abs()) && parts == Present(items[..i], messages)
      {
        assert items[..i + 1][..i] == items[..i];
        if items[i].id in messages { parts := parts + [items[i]]; }
      }
      assert items[..|items|] == items;
      sendingAlbums := sendingAlbums - {g};
      sends := sends + [Send(g, EphemeralParts, parts, history.cancelled, messages)];
    }

    method SendAlbumIfReady(g: Group, mode: Mode)
      requires g in sendingAlbums
      modifies this
      ensures Abs() == SendIfReady(old(Abs()), g, mode)
    {
      var album := sendingAlbums[g];
      if album.sent { return; }
      if |album.items| == 0 {
        sendingAlbums := sendingAlbums - {g};
        return;
      }
      var sample: Option<Id> := None;
      for i := 0 to |album.items|
        invariant Abs() == old(Abs())
        invariant forall k :: 0 <= k < i ==> album.items[k].media.Some?
        invariant sample.Some? <==> Present(album.items[..i], messages) != []
      {
        assert album.items[..i + 1][..i] == album.items[..i];
        if album.items[i].media.None? { return; }
        if sample.None? && album.items[i].id in messages { sample := Some(album.items[i].id); }
      }
      assert album.items[..|album.items|] == album.items;
      if sample.None? {
        sendingAlbums := sendingAlbums - {g};
        return;
      }
      if mode == Refused { return; }
      if mode == ToEphemeral {
        SendToEphemeral(g, album.items);
      } else if mode == Paid {
        sendingAlbums := sendingAlbums[g := album.(sent := true)];
        sends := sends + [Send(g, PaidMedia, album.items, history.cancelled, messages)];
      } else if |album.items| < 2 {
        sendingAlbums := sendingAlbums - {g};
        sends := sends + [Send(g, SingleMedia, album.items, history.cancelled, messages)];
      } else {
        sendingAlbums := sendingAlbums[g := album.(sent := true)];
        sends := sends + [Send(g, MultiMedia, album.items, history.cancelled, messages)];
      }
    }

    /** fillMedia after the Assert of sendAlbumWithUploaded; it asserts that the item is there and has no media. */
    method SendAlbumWithUploaded(id: Id, g: Group, media: Media, mode: Mode)
      modifies this
      ensures Abs() == WithUploaded(old(Abs()), id, g, media, mode)
    {
      hide SendIfReady;
      if g !in sendingAlbums {
        crashed := true;
        return;
      }
      var items := sendingAlbums[g].items;
      var i := FindItem(items, id);
      if i == |items| || items[i].media.Some? {
        crashed := true;
        return;
      }
      sendingAlbums := sendingAlbums[g := sendingAlbums[g].(items := items[i := items[i].(media := Some(media))])];
      history := history.(uploaded := history.uploaded[id := media]);
      SendAlbumIfReady(g, mode);
    }

    method SendAlbumWithCancelled(id: Id, g: Group, mode: Mode)
      modifies this
      ensures Abs() == WithCancelled(old(Abs()), id, g, mode)
    {
      hide SendIfReady;
      if g !in sendingAlbums { return; }
      var items := sendingAlbums[g].items;
      var i := FindItem(items, id);
      if i == |items| {
        crashed := true;
        return;
      }
      sendingAlbums := sendingAlbums[g := sendingAlbums[g].(items := items[..i] + items[i + 1..])];
      SendAlbumIfReady(g, mode);
    }

    /** The reply to the upload of a message. */
    method UploadReply(id: Id, g: Group, media: Media, valid: bool, mode: Mode)
      requires Possible(Abs(), UploadDone(id, media, valid, mode)) && g == GroupOf(Abs(), id)
      modifies this
      ensures Abs() == Step(old(Abs()), UploadDone(id, media, valid, mode))
    {
      history := history.(uploading := history.uploading - {id});
      if id in messages && valid { SendAlbumWithUploaded(id, g, media, mode); }
    }

    /** The reply to a send of the whole album. */
    method SendReply(g: Group)
      requires Possible(Abs(), Reply(g, false))
      modifies this
      ensures Abs() == Step(old(Abs()), Reply(g, false))
    {
      sendingAlbums := sendingAlbums - {g};
    }
  }

  /** The place of the item of a message, as found by a linear search. */
  method FindItem(items: seq<Item>, id: Id) returns (i: nat)
    ensures i == Find(items, id)
  {
    i := 0;
    while i < |items| && items[i].id != id
      invariant i <= |items| && Find(items, id) == i + Find(items[i..], id)
    {
      assert items[i..][1..] == items[i + 1..];
      i := i + 1;
    }
  }
}
