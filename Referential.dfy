/** The reference-array backend: projects, items and elements are separate
    collections, and order lives only in the id lists `Project.items` and
    `Item.elements`. A move is two independent store calls: `$pullAll` of
    the id (which hits the first document of the collection that holds it)
    and then `$push` of the id at a `$position`, issued only when the pull
    reports exactly one matched and one modified document. */
module Referential {
  import opened Sequences
  import opened Naming
  import Embedded

  /** A document id. Ids handed out by the store are fresh. */
  type Id = nat

  /** A project (whose `refs` are its items) or an item (whose `refs` are its
      elements). A project created through the overwrite path has no name. */
  datatype Parent = Parent(id: Id, name: Option<string>, refs: seq<Id>)

  /** An element document; its variant fields are not modelled. */
  datatype ElementDoc = ElementDoc(id: Id, kind: string, name: string)

  datatype ElementTemplate = ElementTemplate(kind: string, name: string)
  datatype ItemTemplate = ItemTemplate(name: string, elements: seq<ElementTemplate>)

  /** The store's answer to an update. */
  datatype Status = Status(acknowledged: bool, matchedCount: nat, modifiedCount: nat)

  /** The three collections and the next fresh id. */
  datatype World = World(projects: seq<Parent>, items: seq<Parent>, elements: seq<ElementDoc>, nextId: Id)

  /** Which reference list a route reorders: a project's items or an item's elements. */
  datatype Level = Items | Elements

  /** What a handler answers. `Done` sends back the store's status; `Crashed`
      stands for a handler that throws; `Unattached` for the create-item path
      whose element push targets a position that holds no item. */
  datatype Reply =
    | Done(status: Status)
    | Deleted
    | NothingDeleted
    | BadParameters
    | NameInvalid
    | TooManyProjects
    | NameExists
    | ParentMissing
    | IndexProblem
    | PullProblem
    | PushProblem
    | IndexMissing
    | Crashed
    | Unattached

  /** The update went through on exactly one document. */
  predicate Confirmed(s: Status)
  {
    s.acknowledged && s.matchedCount == 1 && s.modifiedCount == 1
  }

  // ---------------------------------------------------------------------
  // Guards

  /** The referential backend refuses a new project once 50 exist. */
  predicate RefusesNewProject(count: nat)
  {
    count >= 50
  }

  /** Move up (`index > 0 && n > 1 && n - 1 >= index`). */
  function UpGuard(index: int, n: nat): (ok: bool)
    ensures ok <==> 0 < index < n
  {
    index > 0 && n > 1 && n - 1 >= index
  }

  /** Move down (`index >= 0 && n >= 1 && index < n - 1`): the last member
      is refused, where the embedded backend leaves it in place. */
  function DownGuard(index: int, n: nat): (ok: bool)
    ensures ok <==> 0 <= index && index + 1 < n
  {
    index >= 0 && n >= 1 && index < n - 1
  }

  /** The starting position of a move (`from >= 0 && n >= 1 && n - 1 >= from`). */
  function FromGuard(from: int, n: nat): (ok: bool)
    ensures ok <==> 0 <= from < n
  {
    from >= 0 && n >= 1 && n - 1 >= from
  }

  /** The target position of a move (`to >= 0 && n - 1 > to`): every valid
      starting position except the last. */
  function ToGuard(to: int, n: nat): (ok: bool)
    ensures ok <==> FromGuard(to, n) && to != n - 1
  {
    to >= 0 && n - 1 > to
  }

  /** The position check of element creation (`position <= len && position >= 0`):
      exactly the positions that `$position` takes as they are. */
  function CreateGuard(position: int, len: nat): (ok: bool)
    ensures ok <==> Clamp(position, len) == position
  {
    position <= len && position >= 0
  }

  // ---------------------------------------------------------------------
  // Collections

  /** `findOne({ _id: id })`: the first document with that id. */
  function FindParent(ps: seq<Parent>, id: Id): (k: Option<nat>)
    ensures k.Some? ==> k.value < |ps| && ps[k.value].id == id
    ensures k.Some? ==> forall j :: 0 <= j < k.value ==> ps[j].id != id
    ensures k.None? ==> forall j :: 0 <= j < |ps| ==> ps[j].id != id
  {
    if ps == [] then None
    else if ps[0].id == id then Some(0)
    else match FindParent(ps[1..], id)
      case None => None
      case Some(j) => Some(j + 1)
  }

  /** The document an update filtered by `{ refs: { $in: [x] } }` hits: the
      first one whose list holds `x`. */
  function FirstHolding(ps: seq<Parent>, x: Id): (k: Option<nat>)
    ensures k.Some? ==> k.value < |ps| && x in ps[k.value].refs
    ensures k.Some? ==> forall j :: 0 <= j < k.value ==> x !in ps[j].refs
    ensures k.None? ==> forall j :: 0 <= j < |ps| ==> x !in ps[j].refs
  {
    if ps == [] then None
    else if x in ps[0].refs then Some(0)
    else match FirstHolding(ps[1..], x)
      case None => None
      case Some(j) => Some(j + 1)
  }

  /** `ps` with the list of document `k` replaced. */
  function WithRefs(ps: seq<Parent>, k: nat, refs: seq<Id>): (r: seq<Parent>)
    requires k < |ps|
    ensures |r| == |ps| && r[k].refs == refs
    ensures forall j :: 0 <= j < |ps| ==> r[j].id == ps[j].id && r[j].name == ps[j].name
    ensures forall j :: 0 <= j < |ps| && j != k ==> r[j] == ps[j]
  {
    ps[k := ps[k].(refs := refs)]
  }

  /** The ids of the documents of a collection. */
  function Ids(ps: seq<Parent>): set<Id>
  {
    set j | 0 <= j < |ps| :: ps[j].id
  }

  function ElementIds(es: seq<ElementDoc>): set<Id>
  {
    set j | 0 <= j < |es| :: es[j].id
  }

  /** No two documents share an id. */
  predicate UniqueIds(ps: seq<Parent>)
  {
    forall i, j :: 0 <= i < j < |ps| ==> ps[i].id != ps[j].id
  }

  /** Every id listed anywhere in `ps` names a document of `live`. */
  predicate Resolved(ps: seq<Parent>, live: set<Id>)
  {
    forall j, i :: 0 <= j < |ps| && 0 <= i < |ps[j].refs| ==> ps[j].refs[i] in live
  }

  /** `x` is listed by at most one document. */
  predicate HeldOnce(ps: seq<Parent>, x: Id)
  {
    forall i, j :: 0 <= i < |ps| && 0 <= j < |ps| && x in ps[i].refs && x in ps[j].refs ==> i == j
  }

  /** No other document lists an id that document `k` lists. */
  predicate Owns(ps: seq<Parent>, k: nat)
    requires k < |ps|
  {
    forall j, i :: 0 <= j < |ps| && j != k && 0 <= i < |ps[k].refs| ==> ps[k].refs[i] !in ps[j].refs
  }

  /** The element documents whose id is not in `ids` (`deleteMany({ _id: ids })`). */
  function DropElements(es: seq<ElementDoc>, ids: seq<Id>): (r: seq<ElementDoc>)
    ensures |r| <= |es|
  {
    if es == [] then []
    else if es[0].id in ids then DropElements(es[1..], ids)
    else [es[0]] + DropElements(es[1..], ids)
  }

  /** `refs` with `xs` inserted at the position `$position: pos` denotes. */
  function Spliced(refs: seq<Id>, pos: int, xs: seq<Id>): (r: seq<Id>)
    ensures |r| == |refs| + |xs|
    ensures r[Clamp(pos, |refs|)..Clamp(pos, |refs|) + |xs|] == xs
  {
    var q := Clamp(pos, |refs|);
    assert (refs[..q] + xs + refs[q..])[q..q + |xs|] == xs;
    refs[..q] + xs + refs[q..]
  }

  // ---------------------------------------------------------------------
  // The store as a value

  /** The reference lists a level reorders. */
  function ParentsOf(w: World, level: Level): seq<Parent>
  {
    if level == Items then w.projects else w.items
  }

  /** The documents a level's lists refer to, which `populate` resolves. */
  function ChildIds(w: World, level: Level): set<Id>
  {
    if level == Items then Ids(w.items) else ElementIds(w.elements)
  }

  /** `w` with the reference lists of `level` replaced; nothing they refer to changes. */
  function WithParents(w: World, level: Level, ps: seq<Parent>): (v: World)
    ensures ParentsOf(v, level) == ps && ChildIds(v, level) == ChildIds(w, level)
    ensures v.elements == w.elements && v.nextId == w.nextId
    ensures level == Items ==> v.items == w.items
    ensures level == Elements ==> v.projects == w.projects
  {
    if level == Items then w.(projects := ps) else w.(items := ps)
  }

  /** The lists after `$pullAll` of `x` through the first document that holds it. */
  function PulledParents(ps: seq<Parent>, x: Id): (r: seq<Parent>)
    ensures |r| == |ps|
    ensures forall j :: 0 <= j < |ps| ==> r[j].id == ps[j].id && r[j].name == ps[j].name
  {
    match FirstHolding(ps, x)
    case None => ps
    case Some(k) => WithRefs(ps, k, Without(ps[k].refs, x))
  }

  /** `updateOne({ refs: { $in: [x] } }, { $pullAll: { refs: [x] } })`. */
  function Pull(w: World, level: Level, x: Id): (World, Status)
  {
    var ps := ParentsOf(w, level);
    (WithParents(w, level, PulledParents(ps, x)),
     if FirstHolding(ps, x).Some? then Status(true, 1, 1) else Status(true, 0, 0))
  }

  /** `updateOne({ _id: pid }, { $push: { refs: { $each: xs, $position: pos } } }, { upsert: true })`:
      a missing document is created holding just `xs`. */
  function Push(w: World, level: Level, pid: Id, xs: seq<Id>, pos: int): (r: (World, Status))
    ensures FindParent(ParentsOf(r.0, level), pid).Some?
    ensures ChildIds(r.0, level) == ChildIds(w, level)
  {
    var ps := ParentsOf(w, level);
    match FindParent(ps, pid)
    case None =>
      var ps' := ps + [Parent(pid, None, xs)];
      assert ps'[|ps|].id == pid;
      (WithParents(w, level, ps'), Status(true, 0, 0))
    case Some(k) =>
      (WithParents(w, level, WithRefs(ps, k, Spliced(ps[k].refs, pos, xs))), Status(true, 1, 1))
  }

  // ---------------------------------------------------------------------
  // Handlers as values

  /** The shared tail of the move routes: pull `x`; when `toOk` holds and
      the pull is confirmed, push it into `pid` at `pos`. */
  function PullThenPush(w: World, level: Level, pid: Id, x: Id, pos: int, toOk: bool): (World, Reply)
  {
    var (w1, pulled) := Pull(w, level, x);
    if !(toOk && Confirmed(pulled)) then (w1, PullProblem)
    else
      var (w2, pushed) := Push(w1, level, pid, [x], pos);
      (w2, if Confirmed(pushed) then Done(pushed) else PushProblem)
  }

  /** Move up: positions refer to the populated list, which skips ids whose
      document is gone. */
  function UpOutcome(w: World, level: Level, pid: Option<Id>, index: Option<int>): (World, Reply)
  {
    if pid.None? then (w, BadParameters)
    else
      var ps := ParentsOf(w, level);
      match FindParent(ps, pid.value)
      case None => (w, ParentMissing)
      case Some(k) =>
        var listed := Live(ps[k].refs, ChildIds(w, level));
        if index.None? || !UpGuard(index.value, |listed|) then (w, IndexProblem)
        else PullThenPush(w, level, pid.value, listed[index.value], index.value - 1, true)
  }

  function DownOutcome(w: World, level: Level, pid: Option<Id>, index: Option<int>): (World, Reply)
  {
    if pid.None? then (w, BadParameters)
    else
      var ps := ParentsOf(w, level);
      match FindParent(ps, pid.value)
      case None => (w, ParentMissing)
      case Some(k) =>
        var listed := Live(ps[k].refs, ChildIds(w, level));
        if index.None? || !DownGuard(index.value, |listed|) then (w, IndexProblem)
        else PullThenPush(w, level, pid.value, listed[index.value], index.value + 1, true)
  }

  /** Move from→to as written: `to` is only checked once the pull is done. */
  function MoveToOutcome(w: World, level: Level, pid: Option<Id>, from: Option<int>, to: Option<int>): (World, Reply)
  {
    if pid.None? then (w, BadParameters)
    else
      var ps := ParentsOf(w, level);
      match FindParent(ps, pid.value)
      case None => (w, ParentMissing)
      case Some(k) =>
        var listed := Live(ps[k].refs, ChildIds(w, level));
        if from.None? || !FromGuard(from.value, |listed|) then (w, IndexProblem)
        else
          var toOk := to.Some? && ToGuard(to.value, |listed|);
          PullThenPush(w, level, pid.value, listed[from.value], if to.Some? then to.value else 0, toOk)
  }

  /** Move from→to with `to` checked against every position of the
      shortened list, before anything is pulled. */
  function CheckedMoveToOutcome(w: World, level: Level, pid: Option<Id>, from: Option<int>, to: Option<int>): (World, Reply)
  {
    if pid.None? then (w, BadParameters)
    else
      var ps := ParentsOf(w, level);
      match FindParent(ps, pid.value)
      case None => (w, ParentMissing)
      case Some(k) =>
        var listed := Live(ps[k].refs, ChildIds(w, level));
        if from.None? || !FromGuard(from.value, |listed|) then (w, IndexProblem)
        else if to.None? || !FromGuard(to.value, |listed|) then (w, IndexProblem)
        else PullThenPush(w, level, pid.value, listed[from.value], to.value, true)
  }

  /** Create element: the position is checked against the raw list length. */
  function CreateElementOutcome(w: World, iid: Option<Id>, position: Arg, template: Option<ElementTemplate>): (World, Reply)
  {
    if template.None? || template.value.kind == "" || iid.None? || position.Undefined? then (w, BadParameters)
    else match FindParent(w.items, iid.value)
      case None => (w, Crashed)
      case Some(k) =>
        var p := ArgOrZero(position);
        if !CreateGuard(p, |w.items[k].refs|) then (w, IndexMissing)
        else
          var eid := w.nextId;
          var w1 := w.(elements := w.elements + [ElementDoc(eid, template.value.kind, template.value.name)],
                       nextId := eid + 1);
          var (w2, s) := Push(w1, Elements, iid.value, [eid], p);
          (w2, Done(s))
  }

  /** The element documents saved from templates, with consecutive fresh ids. */
  function Saved(ts: seq<ElementTemplate>, base: Id): (r: seq<ElementDoc>)
    ensures |r| == |ts|
    ensures forall i :: 0 <= i < |ts| ==> r[i].id == base + i && r[i].kind == ts[i].kind && r[i].name == ts[i].name
  {
    seq(|ts|, i requires 0 <= i < |ts| => ElementDoc(base + i, ts[i].kind, ts[i].name))
  }

  /** The ids of `Saved(ts, base)`. */
  function IdsFrom(base: Id, n: nat): (r: seq<Id>)
    ensures |r| == n && forall i :: 0 <= i < n ==> r[i] == base + i
  {
    seq(n, i requires 0 <= i < n => base + i)
  }

  /** The name of the item create-item saves. */
  function NewItemName(itemName: string, template: ItemTemplate): string
  {
    if |template.elements| > 0 then template.name
    else if NameAccepted(itemName) then itemName
    else "New Example Item"
  }

  /** Create item. The new item's id is pushed into the project (creating
      the project when it is missing); a template without elements then
      throws; otherwise the elements are saved and pushed into the item the
      project now lists at `position`. */
  function CreateItemOutcome(w: World, pid: Option<Id>, position: Arg, itemName: string,
                             template: Option<ItemTemplate>): (World, Reply)
  {
    if position.Undefined? || template.None? || pid.None? then (w, BadParameters)
    else
      var p := ArgOrZero(position);
      var creates := template.value.elements;
      var iid := w.nextId;
      var w1 := w.(items := w.items + [Parent(iid, Some(NewItemName(itemName, template.value)), [])],
                   nextId := iid + 1);
      var (w2, _) := Push(w1, Items, pid.value, [iid], p);
      if creates == [] then (w2, Crashed)
      else AttachOutcome(w2, pid.value, p, creates)
  }

  /** The tail of create item: save the element documents, then push their
      ids into the item that project `pid` lists at `p`, if any. */
  function AttachOutcome(w: World, pid: Id, p: int, creates: seq<ElementTemplate>): (World, Reply)
    requires FindParent(w.projects, pid).Some? && creates != []
  {
    var refs := w.projects[FindParent(w.projects, pid).value].refs;
    var w1 := w.(elements := w.elements + Saved(creates, w.nextId), nextId := w.nextId + |creates|);
    if !(0 <= p < |refs|) then (w1, Unattached)
    else
      var (w2, s) := Push(w1, Elements, refs[p], IdsFrom(w.nextId, |creates|), |creates| - 1);
      (w2, Done(s))
  }

  /** Delete item as written: only an item with listed elements is deleted,
      and its id stays in the project's list. */
  function DeleteItemOutcome(w: World, iid: Option<Id>): (World, Reply)
  {
    if iid.None? then (w, Crashed)
    else match FindParent(w.items, iid.value)
      case None => (w, NothingDeleted)
      case Some(k) =>
        var doomed := Live(w.items[k].refs, ElementIds(w.elements));
        if doomed == [] then (w, NothingDeleted)
        else (w.(elements := DropElements(w.elements, doomed), items := Remove(w.items, k)), Deleted)
  }

  /** Delete item with the project's reference pulled as well. This is
      `DeleteItemOutcome` with one change: when the item is deleted, its id
      is also pulled from the first project that lists it. The reply stays
      `Deleted`, since the pull's status is never consulted. */
  function DeleteItemPullingOutcome(w: World, iid: Option<Id>): (World, Reply)
  {
    if iid.None? then (w, Crashed)
    else match FindParent(w.items, iid.value)
      case None => (w, NothingDeleted)
      case Some(k) =>
        var doomed := Live(w.items[k].refs, ElementIds(w.elements));
        if doomed == [] then (w, NothingDeleted)
        else
          var w1 := w.(elements := DropElements(w.elements, doomed), items := Remove(w.items, k));
          var (w2, _) := Pull(w1, Items, iid.value);
          (w2, Deleted)
  }

  /** Delete element: remove the document, then pull its id from the first
      item that lists it. */
  function DeleteElementOutcome(w: World, eid: Option<Id>): (World, Reply)
  {
    if eid.None? then (w, BadParameters)
    else
      var w1 := w.(elements := RemoveElement(w.elements, eid.value));
      var (w2, s) := Pull(w1, Elements, eid.value);
      (w2, Done(s))
  }

  /** `deleteOne({ _id: id })` on the element collection. */
  function RemoveElement(es: seq<ElementDoc>, id: Id): (r: seq<ElementDoc>)
    ensures |r| <= |es|
  {
    if es == [] then []
    else if es[0].id == id then es[1..]
    else [es[0]] + RemoveElement(es[1..], id)
  }

  /** `deleteOne` keeps every document with another id, and adds none. */
  lemma {:induction false} RemoveElementMembers(es: seq<ElementDoc>, id: Id)
    ensures forall e :: e in RemoveElement(es, id) ==> e in es
    ensures forall e :: e in es && e.id != id ==> e in RemoveElement(es, id)
    decreases |es|
  {
    if es != [] && es[0].id != id {
      RemoveElementMembers(es[1..], id);
      assert es == [es[0]] + es[1..];
    } else if es != [] {
      assert es == [es[0]] + es[1..];
    }
  }

  // ---------------------------------------------------------------------
  // The store

  class Store {
    var projects: seq<Parent>
    var items: seq<Parent>
    var elements: seq<ElementDoc>
    var nextId: Id

    constructor (w: World)
      ensures Snapshot() == w
    {
      projects, items, elements, nextId := w.projects, w.items, w.elements, w.nextId;
    }

    function Snapshot(): World
      reads this
    {
      World(projects, items, elements, nextId)
    }

    /** Store the reference lists of `level`. */
    method SetParents(level: Level, ps: seq<Parent>)
      modifies this
      ensures Snapshot() == WithParents(old(Snapshot()), level, ps)
    {
      if level == Items {
        projects := ps;
      } else {
        items := ps;
      }
    }

    /** `$pullAll` of `x` from the first list of `level` that holds it. */
    method PullAll(level: Level, x: Id) returns (s: Status)
      modifies this
      ensures (Snapshot(), s) == Pull(old(Snapshot()), level, x)
    {
      var ps := ParentsOf(Snapshot(), level);
      var k := FirstHolding(ps, x);
      if k.None? {
        return Status(true, 0, 0);
      }
      SetParents(level, WithRefs(ps, k.value, Without(ps[k.value].refs, x)));
      s := Status(true, 1, 1);
    }

    /** `$push` of `xs` at `$position: pos` into the list of `pid`, with upsert. */
    method PushAt(level: Level, pid: Id, xs: seq<Id>, pos: int) returns (s: Status)
      modifies this
      ensures (Snapshot(), s) == Push(old(Snapshot()), level, pid, xs, pos)
    {
      var ps := ParentsOf(Snapshot(), level);
      var k := FindParent(ps, pid);
      if k.None? {
        SetParents(level, ps + [Parent(pid, None, xs)]);
        return Status(true, 0, 0);
      }
      var refs := ps[k.value].refs;
      var q := Clamp(pos, |refs|);
      SetParents(level, WithRefs(ps, k.value, refs[..q] + xs + refs[q..]));
      s := Status(true, 1, 1);
    }

    /** Pull `x`, then push it into `pid` at `pos` when `toOk` holds and the
        pull is confirmed. */
    method Relocate(level: Level, pid: Id, x: Id, pos: int, toOk: bool) returns (r: Reply)
      modifies this
      ensures (Snapshot(), r) == PullThenPush(old(Snapshot()), level, pid, x, pos, toOk)
    {
      var pulled := PullAll(level, x);
      if !(toOk && Confirmed(pulled)) {
        return PullProblem;
      }
      var pushed := PushAt(level, pid, [x], pos);
      r := if Confirmed(pushed) then Done(pushed) else PushProblem;
    }

    /** Routes `PUT /:id/item/up` and `PUT /:id/element/up`. */
    method MoveUp(level: Level, pid: Option<Id>, index: Option<int>) returns (r: Reply)
      modifies this
      ensures (Snapshot(), r) == UpOutcome(old(Snapshot()), level, pid, index)
    {
      if pid.None? {
        return BadParameters;
      }
      var w := Snapshot();
      var ps := ParentsOf(w, level);
      var k := FindParent(ps, pid.value);
      if k.None? {
        return ParentMissing;
      }
      var listed := Live(ps[k.value].refs, ChildIds(w, level));
      if index.None? || !UpGuard(index.value, |listed|) {
        return IndexProblem;
      }
      r := Relocate(level, pid.value, listed[index.value], index.value - 1, true);
    }

    /** Routes `PUT /:id/item/down` and `PUT /:id/element/down`. */
    method MoveDown(level: Level, pid: Option<Id>, index: Option<int>) returns (r: Reply)
      modifies this
      ensures (Snapshot(), r) == DownOutcome(old(Snapshot()), level, pid, index)
    {
      if pid.None? {
        return BadParameters;
      }
      var w := Snapshot();
      var ps := ParentsOf(w, level);
      var k := FindParent(ps, pid.value);
      if k.None? {
        return ParentMissing;
      }
      var listed := Live(ps[k.value].refs, ChildIds(w, level));
      if index.None? || !DownGuard(index.value, |listed|) {
        return IndexProblem;
      }
      r := Relocate(level, pid.value, listed[index.value], index.value + 1, true);
    }

    /** Routes `PUT /:id/item/move` and `PUT /:id/element/move`, as written. */
    method MoveTo(level: Level, pid: Option<Id>, from: Option<int>, to: Option<int>) returns (r: Reply)
      modifies this
      ensures (Snapshot(), r) == MoveToOutcome(old(Snapshot()), level, pid, from, to)
    {
      if pid.None? {
        return BadParameters;
      }
      var w := Snapshot();
      var ps := ParentsOf(w, level);
      var k := FindParent(ps, pid.value);
      if k.None? {
        return ParentMissing;
      }
      var listed := Live(ps[k.value].refs, ChildIds(w, level));
      if from.None? || !FromGuard(from.value, |listed|) {
        return IndexProblem;
      }
      var toOk := to.Some? && ToGuard(to.value, |listed|);
      r := Relocate(level, pid.value, listed[from.value], if to.Some? then to.value else 0, toOk);
    }

    /** The move from→to with the target checked before the pull. */
    method CheckedMoveTo(level: Level, pid: Option<Id>, from: Option<int>, to: Option<int>) returns (r: Reply)
      modifies this
      ensures (Snapshot(), r) == CheckedMoveToOutcome(old(Snapshot()), level, pid, from, to)
    {
      if pid.None? {
        return BadParameters;
      }
      var w := Snapshot();
      var ps := ParentsOf(w, level);
      var k := FindParent(ps, pid.value);
      if k.None? {
        return ParentMissing;
      }
      var listed := Live(ps[k.value].refs, ChildIds(w, level));
      if from.None? || !FromGuard(from.value, |listed|) {
        return IndexProblem;
      }
      if to.None? || !FromGuard(to.value, |listed|) {
        return IndexProblem;
      }
      r := Relocate(level, pid.value, listed[from.value], to.value, true);
    }

    /** Route `POST /project/:name`. A nameless project met by the name loop
        throws (its `name.toLowerCase()` is a call on `undefined`). The
        example item is pushed into the new project's list but never saved. */
    method CreateProject(name: string, overwrite: bool) returns (r: Reply)
      modifies this
      ensures items == old(items) && elements == old(elements)
      ensures
        var ps, pid := old(projects), old(nextId);
        if !NameAccepted(name) then r == NameInvalid && projects == ps && nextId == pid
        else if RefusesNewProject(|ps|) then r == TooManyProjects && projects == ps && nextId == pid
        else if FirstStop(ps, name, overwrite).Some? then
          r == (if ps[FirstStop(ps, name, overwrite).value].name.None? then Crashed else NameExists) &&
          projects == ps && nextId == pid
        else
          r == Done(Status(true, 1, 1)) && nextId == pid + 2 &&
          projects == (if overwrite && |ps| > 0 then ps[..|ps| - 1] else ps)
                      + [Parent(pid, if overwrite && |ps| > 0 then None else Some(name), [pid + 1])]
    {
      if !NameAccepted(name) {
        return NameInvalid;
      }
      if |projects| >= 50 {
        return TooManyProjects;
      }
      var i := 0;
      while i < |projects|
        invariant 0 <= i <= |projects|
        invariant projects == old(projects) && nextId == old(nextId)
        invariant items == old(items) && elements == old(elements)
        invariant forall j :: 0 <= j < i ==> !Stops(projects[j], name, overwrite)
        invariant i < |projects| || |projects| == 0
      {
        var p := projects[i];
        if p.name.None? {
          FirstStopAt(projects, name, overwrite, i);
          return Crashed;
        }
        if SameIgnoringCase(p.name.value, name) && !overwrite {
          FirstStopAt(projects, name, overwrite, i);
          return NameExists;
        }
        if i == |projects| - 1 {
          FirstStopAt(projects, name, overwrite, i + 1);
          if overwrite {
            // deleteOne on the last project; its status, not the request,
            // seeds the saved project, which therefore has no name
            projects := projects[..i];
            r := SaveWithExampleItem(None);
          } else {
            r := SaveWithExampleItem(Some(name));
          }
          return;
        }
        i := i + 1;
      }
      FirstStopAt(projects, name, overwrite, 0);
      r := SaveWithExampleItem(Some(name));
    }

    /** Save a project named `name` whose list holds the id of an example
        item that is never saved. */
    method SaveWithExampleItem(name: Option<string>) returns (r: Reply)
      modifies this
      ensures items == old(items) && elements == old(elements) && nextId == old(nextId) + 2
      ensures projects == old(projects) + [Parent(old(nextId), name, [old(nextId) + 1])]
      ensures r == Done(Status(true, 1, 1))
    {
      var pid, iid := nextId, nextId + 1;
      nextId := nextId + 2;
      projects := projects + [Parent(pid, name, [])];
      // the push at $position 0 into the saved project's empty list
      projects := WithRefs(projects, |projects| - 1, [iid]);
      r := Done(Status(true, 1, 1));
    }

    /** Route `POST /:id/item`. */
    method CreateItem(pid: Option<Id>, position: Arg, itemName: string, template: Option<ItemTemplate>)
      returns (r: Reply)
      modifies this
      ensures (Snapshot(), r) == CreateItemOutcome(old(Snapshot()), pid, position, itemName, template)
    {
      if position.Undefined? || template.None? || pid.None? {
        return BadParameters;
      }
      var p := ArgOrZero(position);
      var creates := template.value.elements;
      var iid := nextId;
      items := items + [Parent(iid, Some(NewItemName(itemName, template.value)), [])];
      nextId := nextId + 1;
      var pushed := PushAt(Items, pid.value, [iid], p);
      if creates == [] {
        // `createElements.length` on undefined
        return Crashed;
      }
      r := AttachElements(pid.value, p, creates);
    }

    /** Save the element documents and push their ids into the item that
        project `pid` lists at `p`. */
    method AttachElements(pid: Id, p: int, creates: seq<ElementTemplate>) returns (r: Reply)
      requires FindParent(projects, pid).Some? && creates != []
      modifies this
      ensures (Snapshot(), r) == AttachOutcome(old(Snapshot()), pid, p, creates)
    {
      var refs := projects[FindParent(projects, pid).value].refs;
      var ids := SaveElements(creates);
      if !(0 <= p < |refs|) {
        return Unattached;
      }
      var s := PushAt(Elements, refs[p], ids, |creates| - 1);
      r := Done(s);
    }

    /** Save one element document per template, each with a fresh id. */
    method SaveElements(ts: seq<ElementTemplate>) returns (ids: seq<Id>)
      modifies this
      ensures ids == IdsFrom(old(nextId), |ts|)
      ensures elements == old(elements) + Saved(ts, old(nextId))
      ensures nextId == old(nextId) + |ts|
      ensures projects == old(projects) && items == old(items)
    {
      ids := [];
      for i := 0 to |ts|
        invariant nextId == old(nextId) + i
        invariant ids == IdsFrom(old(nextId), i)
        invariant elements == old(elements) + Saved(ts[..i], old(nextId))
        invariant projects == old(projects) && items == old(items)
      {
        assert Saved(ts[..i + 1], old(nextId)) == Saved(ts[..i], old(nextId)) + [ElementDoc(nextId, ts[i].kind, ts[i].name)];
        assert IdsFrom(old(nextId), i + 1) == IdsFrom(old(nextId), i) + [nextId];
        elements := elements + [ElementDoc(nextId, ts[i].kind, ts[i].name)];
        ids := ids + [nextId];
        nextId := nextId + 1;
      }
      assert ts[..|ts|] == ts;
    }

    /** Route `DELETE /:itemid`, as written. */
    method DeleteItem(iid: Option<Id>) returns (r: Reply)
      modifies this
      ensures (Snapshot(), r) == DeleteItemOutcome(old(Snapshot()), iid)
    {
      if iid.None? {
        // the id cannot be cast, and the error is rethrown
        return Crashed;
      }
      var k := FindParent(items, iid.value);
      if k.None? {
        return NothingDeleted;
      }
      var listed := Live(items[k.value].refs, ElementIds(elements));
      if listed == [] {
        return NothingDeleted;
      }
      var doomed: seq<Id> := [];
      for i := 0 to |listed|
        invariant doomed == listed[..i]
      {
        doomed := doomed + [listed[i]];
      }
      assert doomed == listed;
      elements := DropElements(elements, doomed);
      items := Remove(items, k.value);
      r := Deleted;
    }

    /** Delete item with the project's reference pulled as well. */
    method DeleteItemPulling(iid: Option<Id>) returns (r: Reply)
      modifies this
      ensures (Snapshot(), r) == DeleteItemPullingOutcome(old(Snapshot()), iid)
    {
      if iid.None? {
        return Crashed;
      }
      var k := FindParent(items, iid.value);
      if k.None? {
        return NothingDeleted;
      }
      var doomed := Live(items[k.value].refs, ElementIds(elements));
      if doomed == [] {
        return NothingDeleted;
      }
      elements := DropElements(elements, doomed);
      items := Remove(items, k.value);
      var status := PullAll(Items, iid.value);
      r := Deleted;
    }

    /** Route `POST /:id/element`. */
    method CreateElement(iid: Option<Id>, position: Arg, template: Option<ElementTemplate>) returns (r: Reply)
      modifies this
      ensures (Snapshot(), r) == CreateElementOutcome(old(Snapshot()), iid, position, template)
    {
      if template.None? || template.value.kind == "" || iid.None? || position.Undefined? {
        return BadParameters;
      }
      var k := FindParent(items, iid.value);
      if k.None? {
        // `item.elements` on a null item
        return Crashed;
      }
      var p := ArgOrZero(position);
      if !CreateGuard(p, |items[k.value].refs|) {
        return IndexMissing;
      }
      var eid := nextId;
      elements := elements + [ElementDoc(eid, template.value.kind, template.value.name)];
      nextId := nextId + 1;
      var s := PushAt(Elements, iid.value, [eid], p);
      r := Done(s);
    }

    /** Route `PUT /item/:id`: rename an element document. */
    method RenameElement(eid: Option<Id>, newName: string) returns (r: Reply)
      modifies this
      ensures projects == old(projects) && items == old(items) && nextId == old(nextId)
      ensures eid.None? || !NameAccepted(newName) ==> r == BadParameters && elements == old(elements)
      ensures eid.Some? && NameAccepted(newName) ==>
        match ElementIndex(old(elements), eid.value)
        case None => r == Done(Status(true, 0, 0)) && elements == old(elements)
        case Some(j) =>
          elements == old(elements)[j := old(elements)[j].(name := newName)] &&
          r == Done(Status(true, 1, if old(elements)[j].name == newName then 0 else 1))
    {
      if eid.None? || !NameAccepted(newName) {
        return BadParameters;
      }
      var j := ElementIndex(elements, eid.value);
      if j.None? {
        return Done(Status(true, 0, 0));
      }
      var changed := if elements[j.value].name == newName then 0 else 1;
      elements := elements[j.value := elements[j.value].(name := newName)];
      r := Done(Status(true, 1, changed));
    }

    /** Route `DELETE /item/:id`: delete an element document and pull its id. */
    method DeleteElement(eid: Option<Id>) returns (r: Reply)
      modifies this
      ensures (Snapshot(), r) == DeleteElementOutcome(old(Snapshot()), eid)
    {
      if eid.None? {
        return BadParameters;
      }
      elements := RemoveElement(elements, eid.value);
      var s := PullAll(Elements, eid.value);
      r := Done(s);
    }
  }

  /** The first element document with id `id`. */
  function ElementIndex(es: seq<ElementDoc>, id: Id): (k: Option<nat>)
    ensures k.Some? ==> k.value < |es| && es[k.value].id == id
    ensures k.Some? ==> forall j :: 0 <= j < k.value ==> es[j].id != id
    ensures k.None? ==> id !in ElementIds(es)
  {
    if es == [] then None
    else if es[0].id == id then Some(0)
    else match ElementIndex(es[1..], id)
      case None =>
        assert forall j :: 1 <= j < |es| ==> es[j].id == es[1..][j - 1].id;
        None
      case Some(j) => Some(j + 1)
  }

  /** Where the project-name loop stops: a project with no name (whose
      lower-casing throws) or, without `overwrite`, one whose name matches. */
  predicate Stops(p: Parent, name: string, overwrite: bool)
  {
    p.name.None? || (!overwrite && SameIgnoringCase(p.name.value, name))
  }

  function FirstStop(ps: seq<Parent>, name: string, overwrite: bool): (j: Option<nat>)
    ensures j.Some? ==> j.value < |ps| && Stops(ps[j.value], name, overwrite)
    ensures j.Some? ==> forall i :: 0 <= i < j.value ==> !Stops(ps[i], name, overwrite)
    ensures j.None? ==> forall i :: 0 <= i < |ps| ==> !Stops(ps[i], name, overwrite)
  {
    if ps == [] then None
    else if Stops(ps[0], name, overwrite) then Some(0)
    else match FirstStop(ps[1..], name, overwrite)
      case None => None
      case Some(j) => Some(j + 1)
  }

  /** The loop stops at the first stopping project, and runs to the end
      when there is none. */
  lemma FirstStopAt(ps: seq<Parent>, name: string, overwrite: bool, i: nat)
    requires i <= |ps| && forall j :: 0 <= j < i ==> !Stops(ps[j], name, overwrite)
    requires i < |ps| ==> Stops(ps[i], name, overwrite)
    ensures FirstStop(ps, name, overwrite) == if i == |ps| then None else Some(i)
  {
  }

  // ---------------------------------------------------------------------
  // Properties of the moves

  /** Document `k` of `level` behaves like an in-memory list: looking it up
      by its id finds it, its ids are distinct, all of them name existing
      documents, and no other document lists any of them. */
  predicate Orderly(w: World, level: Level, k: nat)
  {
    var ps := ParentsOf(w, level);
    && k < |ps|
    && FindParent(ps, ps[k].id) == Some(k)
    && Distinct(ps[k].refs)
    && Owns(ps, k)
    && forall i :: 0 <= i < |ps[k].refs| ==> ps[k].refs[i] in ChildIds(w, level)
  }

  /** In an orderly list, populating drops nothing. */
  lemma ListedIsRaw(w: World, level: Level, k: nat)
    requires Orderly(w, level, k)
    ensures Live(ParentsOf(w, level)[k].refs, ChildIds(w, level)) == ParentsOf(w, level)[k].refs
  {
    var refs := ParentsOf(w, level)[k].refs;
    forall y | y in refs ensures y in ChildIds(w, level) {
      var i :| 0 <= i < |refs| && refs[i] == y;
    }
    LiveAll(refs, ChildIds(w, level));
  }

  /** Changing a list does not change which document an id lookup finds. */
  lemma FindParentKeepsHit(ps: seq<Parent>, k: nat, refs: seq<Id>, id: Id)
    requires k < |ps| && FindParent(ps, id) == Some(k)
    ensures FindParent(WithRefs(ps, k, refs), id) == Some(k)
  {
    var f := FindParent(WithRefs(ps, k, refs), id);
  }

  /** In an orderly list, pulling the member at `i` takes it out of that
      list and no other. */
  lemma PullTakesOut(w: World, level: Level, k: nat, i: nat)
    requires Orderly(w, level, k) && i < |ParentsOf(w, level)[k].refs|
    ensures var ps := ParentsOf(w, level);
            var refs := ps[k].refs;
            Pull(w, level, refs[i]) == (WithParents(w, level, WithRefs(ps, k, Remove(refs, i))), Status(true, 1, 1))
  {
    var ps := ParentsOf(w, level);
    var refs := ps[k].refs;
    var x := refs[i];
    var h := FirstHolding(ps, x);
    assert x in ps[k].refs;
    WithoutSingle(refs, i);
  }

  /** In an orderly list, pulling the member at `i` and pushing it back at
      `pos` is the in-memory splice out and splice in. */
  lemma PullThenPushMoves(w: World, level: Level, k: nat, i: nat, pos: int)
    requires Orderly(w, level, k) && i < |ParentsOf(w, level)[k].refs|
    ensures var ps := ParentsOf(w, level);
            var refs := ps[k].refs;
            PullThenPush(w, level, ps[k].id, refs[i], pos, true)
            == (WithParents(w, level, WithRefs(ps, k, SpliceInsert(Remove(refs, i), pos, refs[i]))), Done(Status(true, 1, 1)))
  {
    var ps := ParentsOf(w, level);
    var refs := ps[k].refs;
    var x, id := refs[i], ps[k].id;
    PullTakesOut(w, level, k, i);
    var ps1 := WithRefs(ps, k, Remove(refs, i));
    var w1 := WithParents(w, level, ps1);
    FindParentKeepsHit(ps, k, Remove(refs, i), id);
    var moved := Spliced(Remove(refs, i), pos, [x]);
    assert moved == SpliceInsert(Remove(refs, i), pos, x);
    assert Push(w1, level, id, [x], pos) == (WithParents(w1, level, WithRefs(ps1, k, moved)), Status(true, 1, 1));
    assert WithRefs(ps1, k, moved) == WithRefs(ps, k, moved);
  }

  /** Move up at `0 < i < n` exchanges members `i - 1` and `i` and changes nothing else. */
  lemma UpSwaps(w: World, level: Level, k: nat, i: nat)
    requires Orderly(w, level, k) && 0 < i < |ParentsOf(w, level)[k].refs|
    ensures var ps := ParentsOf(w, level);
            UpOutcome(w, level, Some(ps[k].id), Some(i))
            == (WithParents(w, level, WithRefs(ps, k, Swap(ps[k].refs, i - 1, i))), Done(Status(true, 1, 1)))
  {
    var ps := ParentsOf(w, level);
    var refs := ps[k].refs;
    ListedIsRaw(w, level, k);
    assert UpOutcome(w, level, Some(ps[k].id), Some(i)) == PullThenPush(w, level, ps[k].id, refs[i], i - 1, true);
    PullThenPushMoves(w, level, k, i, i - 1);
    assert SpliceInsert(Remove(refs, i), i - 1, refs[i]) == MoveUp(refs, i);
    MoveUpIsSwap(refs, i);
  }

  /** Move down at `0 <= i < n - 1` exchanges members `i` and `i + 1` and changes nothing else. */
  lemma DownSwaps(w: World, level: Level, k: nat, i: nat)
    requires Orderly(w, level, k) && i + 1 < |ParentsOf(w, level)[k].refs|
    ensures var ps := ParentsOf(w, level);
            DownOutcome(w, level, Some(ps[k].id), Some(i))
            == (WithParents(w, level, WithRefs(ps, k, Swap(ps[k].refs, i, i + 1))), Done(Status(true, 1, 1)))
  {
    var ps := ParentsOf(w, level);
    var refs := ps[k].refs;
    ListedIsRaw(w, level, k);
    assert DownOutcome(w, level, Some(ps[k].id), Some(i)) == PullThenPush(w, level, ps[k].id, refs[i], i + 1, true);
    PullThenPushMoves(w, level, k, i, i + 1);
    assert SpliceInsert(Remove(refs, i), i + 1, refs[i]) == MoveDown(refs, i);
    MoveDownIsSwap(refs, i);
  }

  /** Move down of the last member is refused and writes nothing. */
  lemma DownRefusesLast(w: World, level: Level, k: nat)
    requires Orderly(w, level, k) && |ParentsOf(w, level)[k].refs| > 0
    ensures var ps := ParentsOf(w, level);
            DownOutcome(w, level, Some(ps[k].id), Some(|ps[k].refs| - 1)) == (w, IndexProblem)
  {
    ListedIsRaw(w, level, k);
  }

  /** Move from→to with both positions accepted is the embedded backend's
      move: remove at `from`, insert at `to` of the shortened list. */
  lemma MoveToMatchesEmbedded(w: World, level: Level, k: nat, from: nat, to: nat)
    requires Orderly(w, level, k) && from < |ParentsOf(w, level)[k].refs| && to + 1 < |ParentsOf(w, level)[k].refs|
    ensures var ps := ParentsOf(w, level);
            MoveToOutcome(w, level, Some(ps[k].id), Some(from), Some(to))
            == (WithParents(w, level, WithRefs(ps, k, MoveTo(ps[k].refs, from, to))), Done(Status(true, 1, 1)))
  {
    ListedIsRaw(w, level, k);
    PullThenPushMoves(w, level, k, from, to);
  }

  /** Move from→to as written: with an accepted `from` and a refused `to`
      (missing, negative, or the last position) the id has already been
      pulled when the error is reported, and no list holds it any more
      although its document still exists. */
  lemma MoveToDetaches(w: World, level: Level, k: nat, from: nat, to: Option<int>)
    requires Orderly(w, level, k) && from < |ParentsOf(w, level)[k].refs|
    requires to.None? || !ToGuard(to.value, |ParentsOf(w, level)[k].refs|)
    ensures var ps := ParentsOf(w, level);
            var x := ps[k].refs[from];
            var (v, r) := MoveToOutcome(w, level, Some(ps[k].id), Some(from), to);
            r == PullProblem &&
            v == WithParents(w, level, WithRefs(ps, k, Remove(ps[k].refs, from))) &&
            x in ChildIds(v, level) &&
            forall j :: 0 <= j < |ParentsOf(v, level)| ==> x !in ParentsOf(v, level)[j].refs
  {
    var ps := ParentsOf(w, level);
    var refs := ps[k].refs;
    var x := refs[from];
    ListedIsRaw(w, level, k);
    PullTakesOut(w, level, k, from);
    WithoutSingle(refs, from);
    var after := WithRefs(ps, k, Remove(refs, from));
    forall j | 0 <= j < |after| ensures x !in after[j].refs {
      if j != k {
        assert x == ps[k].refs[from];
      }
    }
  }

  /** The smallest instance: in a list of two, moving the first member to
      the last position detaches it. */
  lemma MoveToLastOfTwoDetaches(w: World, level: Level, k: nat)
    requires Orderly(w, level, k) && |ParentsOf(w, level)[k].refs| == 2
    ensures var ps := ParentsOf(w, level);
            var (v, r) := MoveToOutcome(w, level, Some(ps[k].id), Some(0), Some(1));
            r == PullProblem && ParentsOf(v, level)[k].refs == [ps[k].refs[1]]
  {
    var refs := ParentsOf(w, level)[k].refs;
    MoveToDetaches(w, level, k, 0, Some(1));
    assert Remove(refs, 0) == [refs[1]];
  }

  /** Move from→to with the target checked first, on positions it accepts:
      exactly the embedded backend's move, over the same range of positions. */
  lemma CheckedMoveToPermutes(w: World, level: Level, k: nat, from: nat, to: nat)
    requires Orderly(w, level, k)
    requires from < |ParentsOf(w, level)[k].refs| && to < |ParentsOf(w, level)[k].refs|
    ensures var ps := ParentsOf(w, level);
            CheckedMoveToOutcome(w, level, Some(ps[k].id), Some(from), Some(to))
            == (WithParents(w, level, WithRefs(ps, k, MoveTo(ps[k].refs, from, to))), Done(Status(true, 1, 1)))
    ensures var refs := ParentsOf(w, level)[k].refs;
            multiset(MoveTo(refs, from, to)) == multiset(refs)
  {
    var ps := ParentsOf(w, level);
    var refs := ps[k].refs;
    ListedIsRaw(w, level, k);
    assert CheckedMoveToOutcome(w, level, Some(ps[k].id), Some(from), Some(to))
           == PullThenPush(w, level, ps[k].id, refs[from], to, true);
    PullThenPushMoves(w, level, k, from, to);
    assert SpliceInsert(Remove(refs, from), to, refs[from]) == MoveTo(refs, from, to);
    MoveToPermutes(refs, from, to);
  }

  /** Move from→to with the target checked first, on positions it refuses:
      the positions are reported as refused and nothing is written, so no id
      is ever left out of its list. */
  lemma CheckedMoveToRefusesCleanly(w: World, level: Level, k: nat, from: Option<int>, to: Option<int>)
    requires Orderly(w, level, k)
    requires !(from.Some? && to.Some? && 0 <= from.value < |ParentsOf(w, level)[k].refs|
               && 0 <= to.value < |ParentsOf(w, level)[k].refs|)
    ensures var ps := ParentsOf(w, level);
            var out := CheckedMoveToOutcome(w, level, Some(ps[k].id), from, to);
            out == (w, IndexProblem)
  {
    ListedIsRaw(w, level, k);
  }

  // ---------------------------------------------------------------------
  // Properties of creation and deletion

  /** Every item id is below the next fresh id. */
  predicate ItemIdsFresh(w: World)
  {
    forall j :: 0 <= j < |w.items| ==> w.items[j].id < w.nextId
  }

  /** The example item of a new project is never saved: with fresh ids its
      reference resolves to nothing, and the populated list is empty. */
  lemma ExampleItemUnlisted(w: World)
    requires ItemIdsFresh(w)
    ensures w.nextId + 1 !in Ids(w.items)
    ensures Live([w.nextId + 1], Ids(w.items)) == []
  {
    assert w.nextId + 1 !in Ids(w.items);
  }

  /** A nameless project (left by an overwrite) makes every later creation
      stop at or before it: with `overwrite`, or without a clash in front of
      it, the loop reaches it and throws. */
  lemma NamelessProjectStopsCreation(ps: seq<Parent>, p: Parent, name: string, overwrite: bool)
    requires p.name.None?
    ensures FirstStop(ps + [p], name, overwrite).Some?
    ensures (overwrite || forall j :: 0 <= j < |ps| ==> ps[j].name.Some? && !SameIgnoringCase(ps[j].name.value, name)) ==>
            var j := FirstStop(ps + [p], name, overwrite).value;
            (ps + [p])[j].name.None?
  {
    assert Stops((ps + [p])[|ps|], name, overwrite);
  }

  /** Create element: accepted exactly for `0 <= position <= n` of the raw
      list, and then the new id is at `position` with the other ids in order. */
  lemma CreateElementPlaces(w: World, iid: Id, position: Arg, t: ElementTemplate)
    requires t.kind != "" && !position.Undefined? && FindParent(w.items, iid).Some?
    ensures var k := FindParent(w.items, iid).value;
            var refs := w.items[k].refs;
            var p := ArgOrZero(position);
            var (v, r) := CreateElementOutcome(w, Some(iid), position, Some(t));
            if 0 <= p <= |refs| then
              r == Done(Status(true, 1, 1)) && v.projects == w.projects &&
              v.items == WithRefs(w.items, k, Insert(refs, p, w.nextId)) &&
              v.elements == w.elements + [ElementDoc(w.nextId, t.kind, t.name)]
            else r == IndexMissing && v == w
  {
    var k := FindParent(w.items, iid).value;
    var p := ArgOrZero(position);
    if 0 <= p <= |w.items[k].refs| {
      assert Spliced(w.items[k].refs, p, [w.nextId]) == Insert(w.items[k].refs, p, w.nextId);
    }
  }

  /** The first half of create item: the item is saved and its id pushed
      at the requested position of an existing project. */
  lemma CreateItemListsItem(w: World, pid: Id, p: int, name: string)
    requires FindParent(w.projects, pid).Some?
    requires 0 <= p <= |w.projects[FindParent(w.projects, pid).value].refs|
    ensures var k := FindParent(w.projects, pid).value;
            var iid := w.nextId;
            var w1 := w.(items := w.items + [Parent(iid, Some(name), [])], nextId := iid + 1);
            Push(w1, Items, pid, [iid], p)
            == (w1.(projects := WithRefs(w.projects, k, Insert(w.projects[k].refs, p, iid))), Status(true, 1, 1))
  {
    var k := FindParent(w.projects, pid).value;
    var refs := w.projects[k].refs;
    assert Spliced(refs, p, [w.nextId]) == Insert(refs, p, w.nextId);
  }

  /** Looking up the id of a document appended after others with other ids finds it. */
  lemma FindAppended(before: seq<Parent>, d: Parent)
    requires forall j :: 0 <= j < |before| ==> before[j].id != d.id
    ensures FindParent(before + [d], d.id) == Some(|before|)
  {
    var ps := before + [d];
    assert ps[|before|].id == d.id;
    forall j | 0 <= j < |before| ensures ps[j].id != d.id {
      assert ps[j] == before[j];
    }
  }

  lemma FillAppended(before: seq<Parent>, iid: Id, name: string, refs: seq<Id>)
    ensures WithRefs(before + [Parent(iid, Some(name), [])], |before|, refs) == before + [Parent(iid, Some(name), refs)]
  {
  }

  /** Create item after its checks, in two steps: the item is saved and
      listed, then either the handler throws or the elements are attached. */
  lemma CreateItemSteps(w: World, pid: Id, position: Arg, itemName: string, t: ItemTemplate)
    requires !position.Undefined?
    ensures var iid := w.nextId;
            var w1 := w.(items := w.items + [Parent(iid, Some(NewItemName(itemName, t)), [])], nextId := iid + 1);
            var w2 := Push(w1, Items, pid, [iid], ArgOrZero(position)).0;
            CreateItemOutcome(w, Some(pid), position, itemName, Some(t))
            == if t.elements == [] then (w2, Crashed) else AttachOutcome(w2, pid, ArgOrZero(position), t.elements)
  {
  }

  /** Create item with a template without elements, at an accepted
      position of an existing project: the new item is saved and its id
      lands at that position, and then the handler throws. */
  lemma CreateItemWithoutElementsCrashes(w: World, pid: Id, position: Arg, itemName: string, t: ItemTemplate)
    requires t.elements == [] && !position.Undefined? && FindParent(w.projects, pid).Some?
    requires 0 <= ArgOrZero(position) <= |w.projects[FindParent(w.projects, pid).value].refs|
    ensures var k := FindParent(w.projects, pid).value;
            var iid := w.nextId;
            CreateItemOutcome(w, Some(pid), position, itemName, Some(t))
            == (World(WithRefs(w.projects, k, Insert(w.projects[k].refs, ArgOrZero(position), iid)),
                      w.items + [Parent(iid, Some(NewItemName(itemName, t)), [])], w.elements, iid + 1),
                Crashed)
  {
    CreateItemSteps(w, pid, position, itemName, t);
    CreateItemListsItem(w, pid, ArgOrZero(position), NewItemName(itemName, t));
  }

  /** Create item with template elements, at an accepted position of an
      existing project, with fresh ids: the new item's id lands at that
      position, and the item holds the new elements' ids in template order. */
  lemma CreateItemPlaces(w: World, pid: Id, position: Arg, itemName: string, t: ItemTemplate)
    requires ItemIdsFresh(w) && t.elements != [] && !position.Undefined? && FindParent(w.projects, pid).Some?
    requires 0 <= ArgOrZero(position) <= |w.projects[FindParent(w.projects, pid).value].refs|
    ensures var k := FindParent(w.projects, pid).value;
            var iid := w.nextId;
            CreateItemOutcome(w, Some(pid), position, itemName, Some(t))
            == (World(WithRefs(w.projects, k, Insert(w.projects[k].refs, ArgOrZero(position), iid)),
                      w.items + [Parent(iid, Some(t.name), IdsFrom(iid + 1, |t.elements|))],
                      w.elements + Saved(t.elements, iid + 1), iid + 1 + |t.elements|),
                Done(Status(true, 1, 1)))
  {
    CreateItemReachesAttach(w, pid, position, itemName, t);
    AttachToListedItem(w, pid, ArgOrZero(position), t);
  }

  /** Create item with template elements: the item is saved and listed,
      then the elements are attached. */
  lemma CreateItemReachesAttach(w: World, pid: Id, position: Arg, itemName: string, t: ItemTemplate)
    requires t.elements != [] && !position.Undefined? && FindParent(w.projects, pid).Some?
    requires 0 <= ArgOrZero(position) <= |w.projects[FindParent(w.projects, pid).value].refs|
    ensures var k := FindParent(w.projects, pid).value;
            var iid := w.nextId;
            var listed := WithRefs(w.projects, k, Insert(w.projects[k].refs, ArgOrZero(position), iid));
            CreateItemOutcome(w, Some(pid), position, itemName, Some(t))
            == AttachOutcome(World(listed, w.items + [Parent(iid, Some(t.name), [])], w.elements, iid + 1),
                             pid, ArgOrZero(position), t.elements)
  {
    assert NewItemName(itemName, t) == t.name;
    CreateItemSteps(w, pid, position, itemName, t);
    CreateItemListsItem(w, pid, ArgOrZero(position), t.name);
  }

  /** The elements of a create item land in the item it has just listed. */
  lemma AttachToListedItem(w: World, pid: Id, p: nat, t: ItemTemplate)
    requires ItemIdsFresh(w) && t.elements != [] && FindParent(w.projects, pid).Some?
    requires p <= |w.projects[FindParent(w.projects, pid).value].refs|
    ensures var k := FindParent(w.projects, pid).value;
            var iid := w.nextId;
            var listed := WithRefs(w.projects, k, Insert(w.projects[k].refs, p, iid));
            AttachOutcome(World(listed, w.items + [Parent(iid, Some(t.name), [])], w.elements, iid + 1), pid, p, t.elements)
            == (World(listed, w.items + [Parent(iid, Some(t.name), IdsFrom(iid + 1, |t.elements|))],
                      w.elements + Saved(t.elements, iid + 1), iid + 1 + |t.elements|),
                Done(Status(true, 1, 1)))
  {
    var k := FindParent(w.projects, pid).value;
    var iid, n := w.nextId, |t.elements|;
    var refs := Insert(w.projects[k].refs, p, iid);
    var item := Parent(iid, Some(t.name), []);
    FindParentKeepsHit(w.projects, k, refs, pid);
    FindAppended(w.items, item);
    assert Spliced([], n - 1, IdsFrom(iid + 1, n)) == IdsFrom(iid + 1, n);
    FillAppended(w.items, iid, t.name, IdsFrom(iid + 1, n));
  }

  /** Removing a document keeps every other id it did not carry. */
  lemma IdsAfterRemove(ps: seq<Parent>, k: nat)
    requires k < |ps|
    ensures forall y :: y in Ids(ps) && y != ps[k].id ==> y in Ids(Remove(ps, k))
    ensures UniqueIds(ps) ==> ps[k].id !in Ids(Remove(ps, k)) && UniqueIds(Remove(ps, k))
  {
    var r := Remove(ps, k);
    forall y | y in Ids(ps) && y != ps[k].id ensures y in Ids(r) {
      var j :| 0 <= j < |ps| && ps[j].id == y;
      assert r[if j < k then j else j - 1] == ps[j];
    }
    if UniqueIds(ps) {
      forall j | 0 <= j < |r| ensures r[j].id != ps[k].id {
        assert r[j] == ps[if j < k then j else j + 1];
      }
    }
  }

  /** Pulling `x` keeps every list resolved against a collection that lost
      at most `x`. */
  lemma PullKeepsResolved(ps: seq<Parent>, x: Id, live: set<Id>, live': set<Id>)
    requires Resolved(ps, live) && HeldOnce(ps, x)
    requires forall y :: y in live && y != x ==> y in live'
    ensures Resolved(PulledParents(ps, x), live')
  {
    var r := PulledParents(ps, x);
    var h := FirstHolding(ps, x);
    forall j, i | 0 <= j < |r| && 0 <= i < |r[j].refs| ensures r[j].refs[i] in live' {
      if h.Some? && j == h.value {
        var y := r[j].refs[i];
        WithoutMembers(ps[j].refs, x);
        assert y in ps[j].refs && y != x;
        var m :| 0 <= m < |ps[j].refs| && ps[j].refs[m] == y;
      } else {
        assert r[j] == ps[j];
        assert x !in ps[j].refs;
        assert ps[j].refs[i] in live;
      }
    }
  }

  /** Delete item as written: an item with listed elements is deleted, but
      a project that listed it still does, so the project's list no longer
      resolves. */
  lemma DeleteItemLeavesDangling(w: World, iid: Id, j: nat)
    requires UniqueIds(w.items) && FindParent(w.items, iid).Some?
    requires Live(w.items[FindParent(w.items, iid).value].refs, ElementIds(w.elements)) != []
    requires j < |w.projects| && iid in w.projects[j].refs
    ensures var (v, r) := DeleteItemOutcome(w, Some(iid));
            r == Deleted && v.projects == w.projects && iid !in Ids(v.items) &&
            !Resolved(v.projects, Ids(v.items))
  {
    var k := FindParent(w.items, iid).value;
    IdsAfterRemove(w.items, k);
    var v := DeleteItemOutcome(w, Some(iid)).0;
    var i :| 0 <= i < |w.projects[j].refs| && w.projects[j].refs[i] == iid;
    assert v.projects[j].refs[i] !in Ids(v.items);
  }

  /** Deleting item 2 (which has one element) from a project listing
      items 1, 2, 3 leaves the project's list as it was. */
  lemma DeleteLeavesIdListed()
    ensures var w := World([Parent(0, Some("P"), [1, 2, 3])],
                           [Parent(1, Some("A"), []), Parent(2, Some("B"), [10]), Parent(3, Some("C"), [])],
                           [ElementDoc(10, "super", "E")], 11);
            DeleteItemOutcome(w, Some(2))
            == (World(w.projects, [Parent(1, Some("A"), []), Parent(3, Some("C"), [])], [], 11), Deleted)
  {
    var a, b, c := Parent(1, Some("A"), []), Parent(2, Some("B"), [10]), Parent(3, Some("C"), []);
    var e := ElementDoc(10, "super", "E");
    var w := World([Parent(0, Some("P"), [1, 2, 3])], [a, b, c], [e], 11);
    assert FindParent(w.items, 2) == Some(1);
    assert ElementIds(w.elements) == {10} by { assert w.elements[0].id == 10; }
    assert Live([10], {10}) == [10];
    assert DropElements([e], [10]) == [];
    assert Remove([a, b, c], 1) == [a, c];
  }

  /** Populating the lists [1, 2, 3] and [2, 1, 3] against items 1 and 3. */
  lemma LiveOfSmallLists()
    ensures Live([1, 2, 3], {1, 3}) == [1, 3]
    ensures Live([2, 1, 3], {1, 3}) == [1, 3]
  {
    assert Live([3], {1, 3}) == [3];
    assert [1, 2, 3][1..] == [2, 3] && [2, 3][1..] == [3];
    assert [2, 1, 3][1..] == [1, 3] && [1, 3][1..] == [3];
  }

  /** Pulling item 1 from a project listing [1, 2, 3]. */
  lemma PullFromSmallList(w: World)
    requires w.projects == [Parent(0, Some("P"), [1, 2, 3])]
    ensures Pull(w, Items, 1) == (w.(projects := [Parent(0, Some("P"), [2, 3])]), Status(true, 1, 1))
  {
    assert FirstHolding(w.projects, 1) == Some(0);
    assert Without([1, 2, 3], 1) == [2, 3] by {
      assert Without([3], 1) == [3];
      assert [1, 2, 3][1..] == [2, 3] && [2, 3][1..] == [3];
    }
    assert WithRefs(w.projects, 0, [2, 3]) == [Parent(0, Some("P"), [2, 3])];
  }

  /** The dangling reference misleads a later move. After the deletion
      above, moving the first listed item down reports success while the
      listed order stays as it was: the id is pushed at position 1 of the
      raw list, right in front of the dangling id. */
  lemma DanglingReferenceStallsMoveDown()
    ensures var w := World([Parent(0, Some("P"), [1, 2, 3])],
                           [Parent(1, Some("A"), []), Parent(3, Some("C"), [])], [], 11);
            var out := DownOutcome(w, Items, Some(0), Some(0));
            out.1 == Done(Status(true, 1, 1)) &&
            out.0.projects[0].refs == [2, 1, 3] &&
            Live(out.0.projects[0].refs, Ids(out.0.items)) == Live(w.projects[0].refs, Ids(w.items)) == [1, 3]
  {
    var a, c := Parent(1, Some("A"), []), Parent(3, Some("C"), []);
    var w := World([Parent(0, Some("P"), [1, 2, 3])], [a, c], [], 11);
    assert Ids([a, c]) == {1, 3} by { assert [a, c][0].id == 1 && [a, c][1].id == 3; }
    MoveDownPastDangling(w);
    LiveOfSmallLists();
  }

  /** Move down at index 0 of a project listing [1, 2, 3] when only items
      1 and 3 exist: item 1 is pulled and pushed back at raw position 1. */
  lemma MoveDownPastDangling(w: World)
    requires w.projects == [Parent(0, Some("P"), [1, 2, 3])] && Ids(w.items) == {1, 3}
    ensures DownOutcome(w, Items, Some(0), Some(0))
            == (w.(projects := [Parent(0, Some("P"), [2, 1, 3])]), Done(Status(true, 1, 1)))
  {
    DownAtZeroMovesFirst(w);
    RelocateIntoDangling(w);
  }

  /** Move down at index 0 of that project relocates item 1 to position 1. */
  lemma DownAtZeroMovesFirst(w: World)
    requires w.projects == [Parent(0, Some("P"), [1, 2, 3])] && Ids(w.items) == {1, 3}
    ensures DownOutcome(w, Items, Some(0), Some(0)) == PullThenPush(w, Items, 0, 1, 1, true)
  {
    LiveOfSmallLists();
    assert FindParent(w.projects, 0) == Some(0);
  }

  /** Relocating item 1 to position 1 turns [1, 2, 3] into [2, 1, 3]. */
  lemma RelocateIntoDangling(w: World)
    requires w.projects == [Parent(0, Some("P"), [1, 2, 3])]
    ensures PullThenPush(w, Items, 0, 1, 1, true)
            == (w.(projects := [Parent(0, Some("P"), [2, 1, 3])]), Done(Status(true, 1, 1)))
  {
    PullFromSmallList(w);
    PushIntoSmallList(w.(projects := [Parent(0, Some("P"), [2, 3])]));
  }

  /** Pushing item 1 at position 1 of a project listing [2, 3]. */
  lemma PushIntoSmallList(w: World)
    requires w.projects == [Parent(0, Some("P"), [2, 3])]
    ensures Push(w, Items, 0, [1], 1) == (w.(projects := [Parent(0, Some("P"), [2, 1, 3])]), Status(true, 1, 1))
  {
    assert FindParent(w.projects, 0) == Some(0);
    assert Spliced([2, 3], 1, [1]) == [2, 1, 3];
    assert WithRefs(w.projects, 0, [2, 1, 3]) == [Parent(0, Some("P"), [2, 1, 3])];
  }

  /** Delete item with the reference pulled: when every project list
      resolved and at most one project listed the item, every project list
      still resolves afterwards, so positions in the populated list and in
      the raw list agree again. */
  lemma PullingDeleteKeepsResolved(w: World, iid: Id)
    requires Resolved(w.projects, Ids(w.items)) && HeldOnce(w.projects, iid)
    ensures var v := DeleteItemPullingOutcome(w, Some(iid)).0;
            Resolved(v.projects, Ids(v.items))
  {
    match FindParent(w.items, iid)
    case None =>
    case Some(k) =>
      IdsAfterRemove(w.items, k);
      PullKeepsResolved(w.projects, iid, Ids(w.items), Ids(Remove(w.items, k)));
  }

  /** Delete element: when every item list resolved and at most one item
      listed the element, every item list still resolves afterwards. */
  lemma DeleteElementKeepsResolved(w: World, eid: Id)
    requires Resolved(w.items, ElementIds(w.elements)) && HeldOnce(w.items, eid)
    ensures var v := DeleteElementOutcome(w, Some(eid)).0;
            Resolved(v.items, ElementIds(v.elements))
  {
    var es := RemoveElement(w.elements, eid);
    RemoveElementMembers(w.elements, eid);
    forall y | y in ElementIds(w.elements) && y != eid ensures y in ElementIds(es) {
      var j :| 0 <= j < |w.elements| && w.elements[j].id == y;
      assert w.elements[j] in es;
      var m :| 0 <= m < |es| && es[m] == w.elements[j];
    }
    PullKeepsResolved(w.items, eid, ElementIds(w.elements), ElementIds(es));
  }

  // ---------------------------------------------------------------------
  // Where the two backends differ

  /** The embedded backend still accepts a project when 50 exist; this one
      does not. They agree on every other count. */
  lemma CapsDisagree(count: nat)
    ensures !Embedded.RefusesNewProject(50) && RefusesNewProject(50)
    ensures count != 50 ==> (Embedded.RefusesNewProject(count) <==> RefusesNewProject(count))
  {
  }
}
