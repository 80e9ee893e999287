/** The embedded-array backend: every project is one document that holds its
    items, and every item holds its elements. Each route handler loads the
    project document, edits the loaded list in place with `splice`, writes
    every sibling's `index` to its rank, and stores the whole `items` array
    back with one `$set`. */
module Embedded {
  import opened Sequences
  import opened Naming

  /** A list member: its position field, its name and the rest of it. */
  datatype Node<T> = Node(index: int, name: string, data: T)

  /** An element's variant tag and its variant fields, which the engine
      never looks into. */
  datatype ElementData = ElementData(kind: string, fields: seq<(string, string)>)
  type Element = Node<ElementData>

  datatype ItemData = ItemData(expanded: bool, options: bool, elements: seq<Element>, uid: string)
  type Item = Node<ItemData>

  datatype Project = Project(id: string, name: string, items: seq<Item>)

  /** What a handler answers. `Crashed` stands for a handler that throws
      (a property read or write on `undefined`) before it writes anything;
      `Silent` for one that neither writes nor answers. */
  datatype Reply =
    | Updated
    | Created
    | BadParameters
    | ProjectMissing
    | NamelessProject
    | IndexMissing
    | NotFound
    | NameExists
    | TooManyProjects
    | Crashed
    | Silent

  /** The most projects the embedded backend lets exist before it refuses
      a new one; it refuses only when MORE than this many exist. */
  const MaxProjects := 50

  predicate RefusesNewProject(count: nat)
  {
    count > MaxProjects
  }

  /** Some listed project already has `name`, ignoring case. */
  predicate NameTaken(docs: seq<Project>, name: string)
  {
    exists j :: 0 <= j < |docs| && SameIgnoringCase(docs[j].name, name)
  }

  // ---------------------------------------------------------------------
  // Renumbering

  /** Every member's `index` equals its rank. */
  predicate Indexed<T>(s: seq<Node<T>>)
  {
    forall i :: 0 <= i < |s| ==> s[i].index == i
  }

  /** `s` with every member's `index` set to its rank and nothing else changed. */
  function Renumbered<T>(s: seq<Node<T>>): (r: seq<Node<T>>)
    ensures |r| == |s| && Indexed(r)
    ensures forall i :: 0 <= i < |s| ==> r[i].name == s[i].name && r[i].data == s[i].data
  {
    seq(|s|, i requires 0 <= i < |s| => s[i].(index := i))
  }

  /** The loop `for (i = 0; i < list.length; ++i) list[i].index = i`. */
  method Renumber<T>(s: seq<Node<T>>) returns (r: seq<Node<T>>)
    ensures r == Renumbered(s)
    ensures Indexed(r)
  {
    r := s;
    for i := 0 to |r|
      invariant |r| == |s|
      invariant forall k :: 0 <= k < i ==> r[k] == s[k].(index := k)
      invariant forall k :: i <= k < |r| ==> r[k] == s[k]
    {
      r := r[i := r[i].(index := i)];
    }
  }

  /** A list that is already numbered by rank is left as it is. */
  lemma RenumberedIndexed<T>(s: seq<Node<T>>)
    requires Indexed(s)
    ensures Renumbered(s) == s
  {
    forall i | 0 <= i < |s| ensures Renumbered(s)[i] == s[i] {
      assert s[i].(index := i) == s[i];
    }
  }

  /** Renumbering forgets the old positions: the result depends only on the
      names and contents of the members, in order. */
  lemma RenumberedForgetsIndex<T>(s: seq<Node<T>>, t: seq<Node<T>>)
    requires |s| == |t|
    requires forall i :: 0 <= i < |s| ==> s[i].name == t[i].name && s[i].data == t[i].data
    ensures Renumbered(s) == Renumbered(t)
  {
    forall i | 0 <= i < |s| ensures Renumbered(s)[i] == Renumbered(t)[i] {
      assert s[i].(index := i) == t[i].(index := i);
    }
  }

  // ---------------------------------------------------------------------
  // Documents

  /** `findOne({ _id: id })`: the first project with that id. */
  function Find(docs: seq<Project>, id: string): (k: Option<nat>)
    ensures k.Some? ==> k.value < |docs| && docs[k.value].id == id
    ensures k.None? ==> forall j :: 0 <= j < |docs| ==> docs[j].id != id
    ensures k.Some? ==> forall j :: 0 <= j < k.value ==> docs[j].id != id
  {
    if docs == [] then None
    else if docs[0].id == id then Some(0)
    else match Find(docs[1..], id)
      case None => None
      case Some(j) => Some(j + 1)
  }

  /** `docs` with the items of project `k` replaced. */
  function WithItems(docs: seq<Project>, k: nat, items: seq<Item>): (r: seq<Project>)
    requires k < |docs|
    ensures |r| == |docs| && r[k].items == items
    ensures r[k].id == docs[k].id && r[k].name == docs[k].name
    ensures forall j :: 0 <= j < |docs| && j != k ==> r[j] == docs[j]
  {
    docs[k := docs[k].(items := items)]
  }

  /** `items` with the elements of item `i` replaced. */
  function WithElements(items: seq<Item>, i: nat, es: seq<Element>): (r: seq<Item>)
    requires i < |items|
    ensures |r| == |items| && r[i].data.elements == es
    ensures r[i].index == items[i].index && r[i].name == items[i].name
    ensures forall j :: 0 <= j < |items| && j != i ==> r[j] == items[j]
  {
    items[i := items[i].(data := items[i].data.(elements := es))]
  }

  /** The elements of item `i`. */
  function ElementsOf(items: seq<Item>, i: nat): seq<Element>
    requires i < |items|
  {
    items[i].data.elements
  }

  /** The number of elements over all items. */
  function TotalElements(items: seq<Item>): nat
  {
    if items == [] then 0 else |items[0].data.elements| + TotalElements(items[1..])
  }

  /** Replacing one item's elements changes the total by the change in that
      item's count. */
  lemma {:induction false} TotalAfterReplace(items: seq<Item>, i: nat, es: seq<Element>)
    requires i < |items|
    ensures TotalElements(WithElements(items, i, es))
         == TotalElements(items) - |ElementsOf(items, i)| + |es|
    decreases |items|
  {
    var r := WithElements(items, i, es);
    if i == 0 {
      assert r[1..] == items[1..];
    } else {
      assert r[1..] == WithElements(items[1..], i - 1, es);
      TotalAfterReplace(items[1..], i - 1, es);
    }
  }

  /** The items after moving element `q` of item `fi` to position `te` of
      item `ti`: the source list is renumbered, and the destination list too
      when it is a different one. */
  function ElementMoved(items: seq<Item>, fi: nat, ti: nat, q: nat, te: int): seq<Item>
    requires fi < |items| && ti < |items| && q < |ElementsOf(items, fi)|
  {
    var src := ElementsOf(items, fi);
    var rest := Remove(src, q);
    if fi == ti then WithElements(items, fi, Renumbered(SpliceInsert(rest, te, src[q])))
    else WithElements(WithElements(items, fi, Renumbered(rest)), ti,
                      Renumbered(SpliceInsert(ElementsOf(items, ti), te, src[q])))
  }

  /** The item every newly created project starts with. */
  function FirstItem(uid: string): Item
  {
    Node(0, "Ex. First Item", ItemData(true, false, [], uid))
  }

  /** The item the create-item route inserts. */
  function NewItem(uid: string): Item
  {
    Node(0, "New Example Item", ItemData(true, false, [], uid))
  }

  /** The highest position most guards let through: `max(len, 1) - 1`,
      which lets position 0 through on an empty list. */
  function LastOrZero(n: nat): nat
  {
    if n == 0 then 0 else n - 1
  }

  class Database {
    /** The project documents, in the order `find({})` lists them. */
    var docs: seq<Project>

    constructor (initial: seq<Project>)
      ensures docs == initial
    {
      docs := initial;
    }

    /** Create a project (route `POST /project/create/:name`). A request
        with `overwrite` replaces the items of the LAST project listed with
        a single first item, whatever that project is called. */
    method CreateProject(name: string, overwrite: bool, bodyItems: Option<seq<Item>>,
                         newId: string, uid: string) returns (r: Reply)
      modifies this
      ensures
        var n := |old(docs)|;
        var created := Project(newId, name, if bodyItems.Some? then bodyItems.value else [FirstItem(uid)]);
        if !Present(name) then r == BadParameters && docs == old(docs)
        else if RefusesNewProject(n) then r == TooManyProjects && docs == old(docs)
        else if !overwrite && NameTaken(old(docs), name) then
          r == NameExists && docs == old(docs)
        else if overwrite && n > 0 then
          r == Updated && docs == WithItems(old(docs), n - 1, [FirstItem(uid)])
        else
          r == Created && docs == old(docs) + [created]
    {
      var items := [FirstItem(uid)];
      if !Present(name) {
        return BadParameters;
      }
      if |docs| > MaxProjects {
        return TooManyProjects;
      }
      var project := Project(newId, name, if bodyItems.Some? then bodyItems.value else [FirstItem(uid)]);
      r := Silent;
      var i := 0;
      while i < |docs|
        invariant 0 <= i <= |docs| && docs == old(docs)
        invariant r == Silent || r == NameExists
        invariant r == Silent ==> i < |docs| || |docs| == 0
        invariant r == Silent ==> forall j :: 0 <= j < i ==> overwrite || !SameIgnoringCase(docs[j].name, name)
        invariant r == NameExists ==> !overwrite && NameTaken(docs, name)
        decreases if r == Silent then |docs| - i else 0
      {
        if SameIgnoringCase(docs[i].name, name) && !overwrite {
          r := NameExists;
          break;
        } else if i == |docs| - 1 {
          if overwrite {
            docs := WithItems(docs, i, items);
            return Updated;
          } else {
            docs := docs + [project];
            return Created;
          }
        }
        i := i + 1;
      }
      if |docs| == 0 {
        docs := docs + [project];
        return Created;
      }
    }

    /** Create an item at `selectedItem`, which defaults to 0 when absent
        (route `POST /project/:id/item`). */
    method CreateItem(id: string, selectedItem: Option<int>, uid: string) returns (r: Reply)
      modifies this
      ensures
        var k := Find(old(docs), id);
        var p := if selectedItem.Some? then selectedItem.value else 0;
        if !Present(id) then r == BadParameters && docs == old(docs)
        else if k.None? then r == ProjectMissing && docs == old(docs)
        else if old(docs)[k.value].name == "" then r == NamelessProject && docs == old(docs)
        else
          var items := old(docs)[k.value].items;
          r == Updated &&
          docs == WithItems(old(docs), k.value,
                            Renumbered(Insert(items, Clamp(p, |items|), NewItem(uid))))
    {
      var p := if selectedItem.Some? then selectedItem.value else 0;
      if !Present(id) {
        return BadParameters;
      }
      var k := Find(docs, id);
      if k.None? {
        return ProjectMissing;
      }
      if docs[k.value].name == "" {
        return NamelessProject;
      }
      var items := docs[k.value].items;
      items := SpliceInsert(items, p, NewItem(uid));
      items := Renumber(items);
      docs := WithItems(docs, k.value, items);
      r := Updated;
    }

    /** Rename the item at `selectedItem` (route `PUT /project/:id/itemname`);
        positions are not touched. */
    method RenameItem(id: string, selectedItem: Option<int>, newName: string) returns (r: Reply)
      modifies this
      ensures
        var k := Find(old(docs), id);
        if !Present(id) || selectedItem.None? || !Present(newName) then r == BadParameters && docs == old(docs)
        else if k.None? then r == ProjectMissing && docs == old(docs)
        else
          var items, p := old(docs)[k.value].items, selectedItem.value;
          if p > LastOrZero(|items|) then r == IndexMissing && docs == old(docs)
          else if p < 0 || p >= |items| then r == Crashed && docs == old(docs)
          else r == Updated &&
               docs == WithItems(old(docs), k.value, items[p := items[p].(name := newName)])
    {
      if !Present(id) || selectedItem.None? || !Present(newName) {
        return BadParameters;
      }
      var k := Find(docs, id);
      if k.None? {
        return ProjectMissing;
      }
      var items, p := docs[k.value].items, selectedItem.value;
      if p > LastOrZero(|items|) {
        return IndexMissing;
      }
      if p < 0 || p >= |items| {
        // items[p] is undefined, and setting its name throws
        return Crashed;
      }
      items := items[p := items[p].(name := newName)];
      docs := WithItems(docs, k.value, items);
      r := Updated;
    }

    /** Delete the item at `selectedItem` (route `POST /project/:id/deleteitem`).
        There is no lower bound: a negative position counts from the end.
        A deletion that leaves the list empty is answered "Not found" and
        not written. */
    method DeleteItem(id: string, selectedItem: Option<int>) returns (r: Reply)
      modifies this
      ensures
        var k := Find(old(docs), id);
        if !Present(id) || selectedItem.None? then r == BadParameters && docs == old(docs)
        else if k.None? then r == ProjectMissing && docs == old(docs)
        else
          var items, p := old(docs)[k.value].items, selectedItem.value;
          var rest := SpliceRemove(items, p);
          if p > LastOrZero(|items|) then r == IndexMissing && docs == old(docs)
          else if rest == [] then r == NotFound && docs == old(docs)
          else r == Updated && docs == WithItems(old(docs), k.value, Renumbered(rest))
    {
      if !Present(id) || selectedItem.None? {
        return BadParameters;
      }
      var k := Find(docs, id);
      if k.None? {
        return ProjectMissing;
      }
      var items, p := docs[k.value].items, selectedItem.value;
      if p > LastOrZero(|items|) {
        return IndexMissing;
      }
      items := SpliceRemove(items, p);
      items := Renumber(items);
      if |items| == 0 {
        return NotFound;
      }
      docs := WithItems(docs, k.value, items);
      r := Updated;
    }

    /** Move the item at `selectedItem` one place up (route `PUT /project/:id/item/up`). */
    method MoveItemUp(id: string, selectedItem: Option<int>) returns (r: Reply)
      modifies this
      ensures
        var k := Find(old(docs), id);
        if !Present(id) || selectedItem.None? then r == BadParameters && docs == old(docs)
        else if k.None? then r == ProjectMissing && docs == old(docs)
        else
          var items, p := old(docs)[k.value].items, selectedItem.value;
          if p <= 0 then r == IndexMissing && docs == old(docs)
          else if p >= |items| then r == Crashed && docs == old(docs)
          else r == Updated && docs == WithItems(old(docs), k.value, Renumbered(Swap(items, p - 1, p)))
    {
      if !Present(id) || selectedItem.None? {
        return BadParameters;
      }
      var k := Find(docs, id);
      if k.None? {
        return ProjectMissing;
      }
      var items, p := docs[k.value].items, selectedItem.value;
      if p <= 0 {
        return IndexMissing;
      }
      if p >= |items| {
        // arr[p] is undefined; it is spliced in and the renumbering loop throws on it
        return Crashed;
      }
      MoveUpIsSwap(items, p);
      var moved := items[p];
      items := Remove(items, p);
      items := Insert(items, p - 1, moved);
      items := Renumber(items);
      docs := WithItems(docs, k.value, items);
      r := Updated;
    }

    /** Move the item at `selectedItem` one place down (route `PUT /project/:id/item/down`).
        The last item is removed and appended again, so its move leaves the
        order as it was; a negative position passes the guard and crashes. */
    method MoveItemDown(id: string, selectedItem: Option<int>) returns (r: Reply)
      modifies this
      ensures
        var k := Find(old(docs), id);
        if !Present(id) || selectedItem.None? then r == BadParameters && docs == old(docs)
        else if k.None? then r == ProjectMissing && docs == old(docs)
        else
          var items, p := old(docs)[k.value].items, selectedItem.value;
          if p > |items| - 1 then r == IndexMissing && docs == old(docs)
          else if p < 0 then r == Crashed && docs == old(docs)
          else if p == |items| - 1 then r == Updated && docs == WithItems(old(docs), k.value, Renumbered(items))
          else r == Updated && docs == WithItems(old(docs), k.value, Renumbered(Swap(items, p, p + 1)))
    {
      if !Present(id) || selectedItem.None? {
        return BadParameters;
      }
      var k := Find(docs, id);
      if k.None? {
        return ProjectMissing;
      }
      var items, p := docs[k.value].items, selectedItem.value;
      if p > |items| - 1 {
        return IndexMissing;
      }
      if p < 0 {
        // arr[p] is undefined; it is spliced in and the renumbering loop throws on it
        return Crashed;
      }
      if p == |items| - 1 {
        MoveDownLastIsIdentity(items);
      } else {
        MoveDownIsSwap(items, p);
      }
      var moved := items[p];
      items := Remove(items, p);
      items := SpliceInsert(items, p + 1, moved);
      items := Renumber(items);
      docs := WithItems(docs, k.value, items);
      r := Updated;
    }

    /** Move the item at `fromItem` to `toItem` (route `PUT /project/:id/item/move`);
        `toItem` is a position in the list without the moved item. */
    method MoveItem(id: string, fromItem: Option<int>, toItem: Option<int>) returns (r: Reply)
      modifies this
      ensures
        var k := Find(old(docs), id);
        if !Present(id) || fromItem.None? || toItem.None? then r == BadParameters && docs == old(docs)
        else if k.None? then r == ProjectMissing && docs == old(docs)
        else
          var items, f, t := old(docs)[k.value].items, fromItem.value, toItem.value;
          if !(0 <= f < |items| && 0 <= t < |items|) then r == IndexMissing && docs == old(docs)
          else r == Updated && docs == WithItems(old(docs), k.value, Renumbered(MoveTo(items, f, t)))
    {
      if !Present(id) || fromItem.None? || toItem.None? {
        return BadParameters;
      }
      var k := Find(docs, id);
      if k.None? {
        return ProjectMissing;
      }
      var items, f, t := docs[k.value].items, fromItem.value, toItem.value;
      if !(0 <= f < |items| && 0 <= t < |items|) {
        return IndexMissing;
      }
      var moved := items[f];
      items := Remove(items, f);
      items := Insert(items, t, moved);
      items := Renumber(items);
      docs := WithItems(docs, k.value, items);
      r := Updated;
    }

    /** Cut the item at `selectedItem` (route `PUT /project/:id/item/cut`).
        The first item can never be cut; a position past the end removes
        nothing but still writes. An empty list is neither written nor answered. */
    method CutItem(id: string, selectedItem: Option<int>) returns (r: Reply)
      modifies this
      ensures
        var k := Find(old(docs), id);
        if !Present(id) || selectedItem.None? then r == BadParameters && docs == old(docs)
        else if k.None? then r == ProjectMissing && docs == old(docs)
        else
          var items, p := old(docs)[k.value].items, selectedItem.value;
          if p <= 0 then r == IndexMissing && docs == old(docs)
          else if items == [] then r == Silent && docs == old(docs)
          else r == Updated && docs == WithItems(old(docs), k.value, Renumbered(SpliceRemove(items, p)))
    {
      if !Present(id) || selectedItem.None? {
        return BadParameters;
      }
      var k := Find(docs, id);
      if k.None? {
        return ProjectMissing;
      }
      var items, p := docs[k.value].items, selectedItem.value;
      if p <= 0 {
        return IndexMissing;
      }
      items := SpliceRemove(items, p);
      items := Renumber(items);
      if |items| == 0 {
        return Silent;
      }
      docs := WithItems(docs, k.value, items);
      r := Updated;
    }

    /** Paste `item` at `selectedItem` (route `PUT /project/:id/item/paste`).
        Position 0 is refused; a position past the end appends. */
    method PasteItem(id: string, selectedItem: Option<int>, item: Option<Item>) returns (r: Reply)
      modifies this
      ensures
        var k := Find(old(docs), id);
        if !Present(id) || selectedItem.None? || item.None? then r == BadParameters && docs == old(docs)
        else if k.None? then r == ProjectMissing && docs == old(docs)
        else
          var items, p := old(docs)[k.value].items, selectedItem.value;
          if p <= 0 then r == IndexMissing && docs == old(docs)
          else r == Updated &&
               docs == WithItems(old(docs), k.value, Renumbered(Insert(items, Clamp(p, |items|), item.value)))
    {
      if !Present(id) || selectedItem.None? || item.None? {
        return BadParameters;
      }
      var k := Find(docs, id);
      if k.None? {
        return ProjectMissing;
      }
      var items, p := docs[k.value].items, selectedItem.value;
      if p <= 0 {
        return IndexMissing;
      }
      items := SpliceInsert(items, p, item.value);
      items := Renumber(items);
      docs := WithItems(docs, k.value, items);
      r := Updated;
    }

    /** Move the element at `selectedElement` of item `selectedItem` one place up
        (route `PUT /project/:id/element/up`). The elements of the first item
        cannot be moved. */
    method MoveElementUp(id: string, selectedItem: Option<int>, selectedElement: Option<int>) returns (r: Reply)
      modifies this
      ensures
        var k := Find(old(docs), id);
        if !Present(id) || selectedItem.None? || selectedElement.None? then r == BadParameters && docs == old(docs)
        else if k.None? then r == ProjectMissing && docs == old(docs)
        else
          var items, i, e := old(docs)[k.value].items, selectedItem.value, selectedElement.value;
          if !(0 < i <= |items| - 1) || e <= 0 then r == IndexMissing && docs == old(docs)
          else if e >= |ElementsOf(items, i)| then r == Crashed && docs == old(docs)
          else r == Updated &&
               docs == WithItems(old(docs), k.value,
                         WithElements(items, i, Renumbered(Swap(ElementsOf(items, i), e - 1, e))))
    {
      if !Present(id) || selectedItem.None? || selectedElement.None? {
        return BadParameters;
      }
      var k := Find(docs, id);
      if k.None? {
        return ProjectMissing;
      }
      var items, i, e := docs[k.value].items, selectedItem.value, selectedElement.value;
      if !(0 < i <= |items| - 1) || e <= 0 {
        return IndexMissing;
      }
      var es := items[i].data.elements;
      if e >= |es| {
        // arr[e] is undefined; it is spliced in and the renumbering loop throws on it
        return Crashed;
      }
      MoveUpIsSwap(es, e);
      var moved := es[e];
      es := Remove(es, e);
      es := Insert(es, e - 1, moved);
      es := Renumber(es);
      docs := WithItems(docs, k.value, WithElements(items, i, es));
      r := Updated;
    }

    /** Move the element at `selectedElement` of item `selectedItem` one place
        down (route `PUT /project/:id/element/down`). */
    method MoveElementDown(id: string, selectedItem: Option<int>, selectedElement: Option<int>) returns (r: Reply)
      modifies this
      ensures
        var k := Find(old(docs), id);
        if !Present(id) || selectedItem.None? || selectedElement.None? then r == BadParameters && docs == old(docs)
        else if k.None? then r == ProjectMissing && docs == old(docs)
        else
          var items, i, e := old(docs)[k.value].items, selectedItem.value, selectedElement.value;
          if !(0 < i <= |items| - 1) || e > |ElementsOf(items, i)| - 1 then r == IndexMissing && docs == old(docs)
          else if e < 0 then r == Crashed && docs == old(docs)
          else
            var es := ElementsOf(items, i);
            r == Updated &&
            docs == WithItems(old(docs), k.value,
                      WithElements(items, i, Renumbered(if e == |es| - 1 then es else Swap(es, e, e + 1))))
    {
      if !Present(id) || selectedItem.None? || selectedElement.None? {
        return BadParameters;
      }
      var k := Find(docs, id);
      if k.None? {
        return ProjectMissing;
      }
      var items, i, e := docs[k.value].items, selectedItem.value, selectedElement.value;
      if !(0 < i <= |items| - 1) {
        return IndexMissing;
      }
      var es := items[i].data.elements;
      if e > |es| - 1 {
        return IndexMissing;
      }
      if e < 0 {
        // arr[e] is undefined; it is spliced in and the renumbering loop throws on it
        return Crashed;
      }
      if e == |es| - 1 {
        MoveDownLastIsIdentity(es);
      } else {
        MoveDownIsSwap(es, e);
      }
      var moved := es[e];
      es := Remove(es, e);
      es := SpliceInsert(es, e + 1, moved);
      es := Renumber(es);
      docs := WithItems(docs, k.value, WithElements(items, i, es));
      r := Updated;
    }

    /** Move an element from one item to another, or within one item
        (route `PUT /project/:id/element/move`). Only the item positions are
        checked; an element position that selects nothing splices
        `undefined` into the destination, and renumbering then throws. */
    method MoveElement(id: string, fromItem: Option<int>, toItem: Option<int>,
                       fromElement: Option<int>, toElement: Option<int>) returns (r: Reply)
      modifies this
      ensures
        var k := Find(old(docs), id);
        if !Present(id) || fromItem.None? || toItem.None? || fromElement.None? || toElement.None? then
          r == BadParameters && docs == old(docs)
        else if k.None? then r == ProjectMissing && docs == old(docs)
        else
          var items, fi, ti := old(docs)[k.value].items, fromItem.value, toItem.value;
          if !(0 <= fi < |items| && 0 <= ti < |items|) then r == IndexMissing && docs == old(docs)
          else
            var src := ElementsOf(items, fi);
            var q := Clamp(fromElement.value, |src|);
            if q == |src| then r == Crashed && docs == old(docs)
            else r == Updated && docs == WithItems(old(docs), k.value, ElementMoved(items, fi, ti, q, toElement.value))
    {
      if !Present(id) || fromItem.None? || toItem.None? || fromElement.None? || toElement.None? {
        return BadParameters;
      }
      var k := Find(docs, id);
      if k.None? {
        return ProjectMissing;
      }
      var items, fi, ti := docs[k.value].items, fromItem.value, toItem.value;
      if !(0 <= fi < |items| && 0 <= ti < |items|) {
        return IndexMissing;
      }
      var src := items[fi].data.elements;
      var q := Clamp(fromElement.value, |src|);
      if q == |src| {
        // splice removed nothing, so `undefined` is inserted and renumbering throws
        return Crashed;
      }
      var moved := src[q];
      var rest := Remove(src, q);
      if fi == ti {
        var dst := SpliceInsert(rest, toElement.value, moved);
        dst := Renumber(dst);
        items := WithElements(items, fi, dst);
      } else {
        var dst := SpliceInsert(items[ti].data.elements, toElement.value, moved);
        rest := Renumber(rest);
        dst := Renumber(dst);
        items := WithElements(WithElements(items, fi, rest), ti, dst);
      }
      docs := WithItems(docs, k.value, items);
      r := Updated;
    }

    /** Cut the element at `selectedElement` of item `selectedItem`
        (route `PUT /project/:id/element/cut`). Unlike the item cut, the
        first item is allowed; a negative element position counts from the
        end. A cut that empties the list is neither written nor answered. */
    method CutElement(id: string, selectedItem: Option<int>, selectedElement: Option<int>) returns (r: Reply)
      modifies this
      ensures
        var k := Find(old(docs), id);
        if !Present(id) || selectedItem.None? || selectedElement.None? then r == BadParameters && docs == old(docs)
        else if k.None? then r == ProjectMissing && docs == old(docs)
        else
          var items, i, e := old(docs)[k.value].items, selectedItem.value, selectedElement.value;
          if !(0 <= i <= |items| - 1) || e > |ElementsOf(items, i)| - 1 then r == IndexMissing && docs == old(docs)
          else
            var rest := SpliceRemove(ElementsOf(items, i), e);
            if rest == [] then r == Silent && docs == old(docs)
            else r == Updated && docs == WithItems(old(docs), k.value, WithElements(items, i, Renumbered(rest)))
    {
      if !Present(id) || selectedItem.None? || selectedElement.None? {
        return BadParameters;
      }
      var k := Find(docs, id);
      if k.None? {
        return ProjectMissing;
      }
      var items, i, e := docs[k.value].items, selectedItem.value, selectedElement.value;
      if !(0 <= i <= |items| - 1) {
        return IndexMissing;
      }
      var es := items[i].data.elements;
      if e > |es| - 1 {
        return IndexMissing;
      }
      es := SpliceRemove(es, e);
      es := Renumber(es);
      if |es| == 0 {
        return Silent;
      }
      docs := WithItems(docs, k.value, WithElements(items, i, es));
      r := Updated;
    }

    /** Paste `element` at `selectedElement` of item `selectedItem`
        (route `PUT /project/:id/element/paste`). The position must not
        exceed the last element's, so nothing can be pasted at the end or
        into an empty item with a non-negative position. */
    method PasteElement(id: string, selectedItem: Option<int>, selectedElement: Option<int>,
                        element: Option<Element>) returns (r: Reply)
      modifies this
      ensures
        var k := Find(old(docs), id);
        if !Present(id) || selectedItem.None? || selectedElement.None? || element.None? then
          r == BadParameters && docs == old(docs)
        else if k.None? then r == ProjectMissing && docs == old(docs)
        else
          var items, i, e := old(docs)[k.value].items, selectedItem.value, selectedElement.value;
          if !(0 <= i <= |items| - 1) || e > |ElementsOf(items, i)| - 1 then r == IndexMissing && docs == old(docs)
          else
            var es := ElementsOf(items, i);
            r == Updated &&
            docs == WithItems(old(docs), k.value,
                      WithElements(items, i, Renumbered(Insert(es, Clamp(e, |es|), element.value))))
    {
      if !Present(id) || selectedItem.None? || selectedElement.None? || element.None? {
        return BadParameters;
      }
      var k := Find(docs, id);
      if k.None? {
        return ProjectMissing;
      }
      var items, i, e := docs[k.value].items, selectedItem.value, selectedElement.value;
      if !(0 <= i <= |items| - 1) {
        return IndexMissing;
      }
      var es := items[i].data.elements;
      if e > |es| - 1 {
        return IndexMissing;
      }
      es := SpliceInsert(es, e, element.value);
      es := Renumber(es);
      docs := WithItems(docs, k.value, WithElements(items, i, es));
      r := Updated;
    }

    /** Create an element from `template` in item `selectedItem`
        (route `POST /project/:id/element`). A `null` position means 0; an
        element position that selects no element inserts at the front. */
    method CreateElement(id: string, selectedItem: Arg, selectedElement: Arg,
                         template: Option<Element>) returns (r: Reply)
      modifies this
      ensures
        var k := Find(old(docs), id);
        if template.None? || !Present(id) || selectedItem.Undefined? || selectedElement.Undefined? then
          r == BadParameters && docs == old(docs)
        else if k.None? then r == ProjectMissing && docs == old(docs)
        else
          var items := old(docs)[k.value].items;
          var i, e := ArgOrZero(selectedItem), ArgOrZero(selectedElement);
          if i > LastOrZero(|items|) then r == IndexMissing && docs == old(docs)
          else if i < 0 || i >= |items| then r == Crashed && docs == old(docs)
          else
            var es := ElementsOf(items, i);
            if e > LastOrZero(|es|) then r == IndexMissing && docs == old(docs)
            else r == Updated &&
                 docs == WithItems(old(docs), k.value,
                           WithElements(items, i, Renumbered(Insert(es, if 0 <= e < |es| then e else 0, template.value))))
    {
      if template.None? || !Present(id) || selectedItem.Undefined? || selectedElement.Undefined? {
        return BadParameters;
      }
      // a null position has already been replaced by 0
      var i, e := ArgOrZero(selectedItem), ArgOrZero(selectedElement);
      var k := Find(docs, id);
      if k.None? {
        return ProjectMissing;
      }
      var items := docs[k.value].items;
      if i > LastOrZero(|items|) {
        return IndexMissing;
      }
      if i < 0 || i >= |items| {
        // items[i] is undefined, and reading its elements throws
        return Crashed;
      }
      var es := items[i].data.elements;
      if e > LastOrZero(|es|) {
        return IndexMissing;
      }
      // the handler's fallback when elements[e] is undefined
      var at := if 0 <= e < |es| then e else 0;
      es := Insert(es, at, template.value);
      es := Renumber(es);
      docs := WithItems(docs, k.value, WithElements(items, i, es));
      r := Updated;
    }

    /** Rename element `selectedElement` of item `selectedItem` (routes
        `PUT /project/:id/elementname` and `PUT /project/:id/element`, which
        behave identically); positions are not touched. */
    method RenameElement(id: string, selectedItem: Option<int>, selectedElement: Option<int>,
                         newName: string) returns (r: Reply)
      modifies this
      ensures
        var k := Find(old(docs), id);
        if !Present(id) || selectedElement.None? || selectedItem.None? || !Present(newName) then
          r == BadParameters && docs == old(docs)
        else if k.None? then r == ProjectMissing && docs == old(docs)
        else
          var items, i, e := old(docs)[k.value].items, selectedItem.value, selectedElement.value;
          if i > LastOrZero(|items|) then r == IndexMissing && docs == old(docs)
          else if i < 0 || i >= |items| then r == Crashed && docs == old(docs)
          else
            var es := ElementsOf(items, i);
            if e > LastOrZero(|es|) then r == IndexMissing && docs == old(docs)
            else if e < 0 || e >= |es| then r == Crashed && docs == old(docs)
            else r == Updated &&
                 docs == WithItems(old(docs), k.value, WithElements(items, i, es[e := es[e].(name := newName)]))
    {
      if !Present(id) || selectedElement.None? || selectedItem.None? || !Present(newName) {
        return BadParameters;
      }
      var k := Find(docs, id);
      if k.None? {
        return ProjectMissing;
      }
      var items, i, e := docs[k.value].items, selectedItem.value, selectedElement.value;
      if i > LastOrZero(|items|) {
        return IndexMissing;
      }
      if i < 0 || i >= |items| {
        // items[i] is undefined, and reading its elements throws
        return Crashed;
      }
      var es := items[i].data.elements;
      if e > LastOrZero(|es|) {
        return IndexMissing;
      }
      if e < 0 || e >= |es| {
        // elements[e] is undefined, and setting its name throws
        return Crashed;
      }
      es := es[e := es[e].(name := newName)];
      docs := WithItems(docs, k.value, WithElements(items, i, es));
      r := Updated;
    }

    /** Delete element `selectedElement` of item `selectedItem`
        (route `POST /project/:id/deleteelement`). A negative element
        position counts from the end; an emptied list is still written. */
    method DeleteElement(id: string, selectedItem: Option<int>, selectedElement: Option<int>) returns (r: Reply)
      modifies this
      ensures
        var k := Find(old(docs), id);
        if !Present(id) || selectedItem.None? || selectedElement.None? then r == BadParameters && docs == old(docs)
        else if k.None? then r == ProjectMissing && docs == old(docs)
        else
          var items, i, e := old(docs)[k.value].items, selectedItem.value, selectedElement.value;
          if i > LastOrZero(|items|) then r == IndexMissing && docs == old(docs)
          else if i < 0 || i >= |items| then r == Crashed && docs == old(docs)
          else
            var es := ElementsOf(items, i);
            if e > LastOrZero(|es|) then r == IndexMissing && docs == old(docs)
            else r == Updated &&
                 docs == WithItems(old(docs), k.value, WithElements(items, i, Renumbered(SpliceRemove(es, e))))
    {
      if !Present(id) || selectedItem.None? || selectedElement.None? {
        return BadParameters;
      }
      var k := Find(docs, id);
      if k.None? {
        return ProjectMissing;
      }
      var items, i, e := docs[k.value].items, selectedItem.value, selectedElement.value;
      if i > LastOrZero(|items|) {
        return IndexMissing;
      }
      if i < 0 || i >= |items| {
        // items[i] is undefined, and reading its elements throws
        return Crashed;
      }
      var es := items[i].data.elements;
      if e > LastOrZero(|es|) {
        return IndexMissing;
      }
      es := SpliceRemove(es, e);
      es := Renumber(es);
      docs := WithItems(docs, k.value, WithElements(items, i, es));
      r := Updated;
    }
  }

  // ---------------------------------------------------------------------
  // Properties of the handlers' results

  /** What a list holds once positions are ignored: names and contents, in order. */
  function Contents<T>(s: seq<Node<T>>): (c: seq<(string, T)>)
    ensures |c| == |s|
    ensures forall i :: 0 <= i < |s| ==> c[i] == (s[i].name, s[i].data)
  {
    seq(|s|, i requires 0 <= i < |s| => (s[i].name, s[i].data))
  }

  lemma ContentsRenumbered<T>(s: seq<Node<T>>)
    ensures Contents(Renumbered(s)) == Contents(s)
  {
  }

  lemma ContentsInsert<T>(s: seq<Node<T>>, p: nat, x: Node<T>)
    requires p <= |s|
    ensures Contents(Insert(s, p, x)) == Insert(Contents(s), p, (x.name, x.data))
  {
    var a, b := Contents(Insert(s, p, x)), Insert(Contents(s), p, (x.name, x.data));
    forall i | 0 <= i < |a| ensures a[i] == b[i] {
      if i > p {
        assert Insert(s, p, x)[i] == s[i - 1];
      }
    }
  }

  lemma ContentsRemove<T>(s: seq<Node<T>>, p: nat)
    requires p < |s|
    ensures Contents(Remove(s, p)) == Remove(Contents(s), p)
  {
    var a, b := Contents(Remove(s, p)), Remove(Contents(s), p);
    forall i | 0 <= i < |a| ensures a[i] == b[i] {
      if i >= p {
        assert Remove(s, p)[i] == s[i + 1];
      }
    }
  }

  lemma ContentsMoveTo<T>(s: seq<Node<T>>, from: nat, to: nat)
    requires from < |s| && to < |s|
    ensures Contents(MoveTo(s, from, to)) == MoveTo(Contents(s), from, to)
  {
    ContentsRemove(s, from);
    ContentsInsert(Remove(s, from), to, s[from]);
  }

  /** Create item: the list grows by exactly the new item, at the normalised
      position, the others keeping their relative order, and is numbered by rank. */
  lemma CreateItemInsertsOne(items: seq<Item>, selectedItem: int, uid: string)
    ensures var q := Clamp(selectedItem, |items|);
            var r := Renumbered(Insert(items, q, NewItem(uid)));
            Indexed(r) && |r| == |items| + 1 &&
            Contents(r) == Insert(Contents(items), q, ("New Example Item", NewItem(uid).data))
  {
    var q := Clamp(selectedItem, |items|);
    ContentsRenumbered(Insert(items, q, NewItem(uid)));
    ContentsInsert(items, q, NewItem(uid));
  }

  /** Delete and cut: the list loses exactly the member at the normalised
      position and is numbered by rank. */
  lemma SpliceRemoveDropsOne<T>(s: seq<Node<T>>, p: int)
    requires Clamp(p, |s|) < |s|
    ensures var r := Renumbered(SpliceRemove(s, p));
            Indexed(r) && |r| == |s| - 1 && Contents(r) == Remove(Contents(s), Clamp(p, |s|))
  {
    ContentsRenumbered(SpliceRemove(s, p));
    ContentsRemove(s, Clamp(p, |s|));
  }

  /** Move from→to: the result is numbered by rank, holds the moved member at
      `to`, and holds the same members as before. */
  lemma MoveItemPermutes(items: seq<Item>, from: nat, to: nat)
    requires from < |items| && to < |items|
    ensures var r := Renumbered(MoveTo(items, from, to));
            Indexed(r) && |r| == |items| &&
            Contents(r)[to] == Contents(items)[from] &&
            multiset(Contents(r)) == multiset(Contents(items))
  {
    ContentsRenumbered(MoveTo(items, from, to));
    ContentsMoveTo(items, from, to);
    MoveToPermutes(Contents(items), from, to);
  }

  /** Moving item `p` up and then item `p - 1` down gives back a list that
      was numbered by rank. */
  lemma UpThenDownRestores<T>(s: seq<Node<T>>, p: nat)
    requires Indexed(s) && 0 < p < |s|
    ensures Renumbered(Swap(Renumbered(Swap(s, p - 1, p)), p - 1, p)) == s
  {
    var c := Swap(Renumbered(Swap(s, p - 1, p)), p - 1, p);
    RenumberedForgetsIndex(c, s);
    RenumberedIndexed(s);
  }

  /** Cutting item `p` and pasting the cut item back at `p` gives back a
      list that was numbered by rank. */
  lemma CutThenPasteRestores(items: seq<Item>, p: nat)
    requires Indexed(items) && 0 < p < |items|
    ensures Renumbered(Insert(Renumbered(SpliceRemove(items, p)), Clamp(p, |items| - 1), items[p])) == items
  {
    var rest := Renumbered(Remove(items, p));
    var c := Insert(rest, p, items[p]);
    forall i | 0 <= i < |items| ensures c[i].name == items[i].name && c[i].data == items[i].data {
      if i > p {
        assert c[i] == rest[i - 1];
      }
    }
    RenumberedForgetsIndex(c, items);
    RenumberedIndexed(items);
  }

  /** Moving an element keeps the number of elements over all items; the
      source loses one, the destination gains one, and the moved element
      arrives at the normalised target position. */
  lemma ElementMoveKeepsTotal(items: seq<Item>, fi: nat, ti: nat, q: nat, te: int)
    requires fi < |items| && ti < |items| && q < |ElementsOf(items, fi)|
    ensures var r := ElementMoved(items, fi, ti, q, te);
            var src := ElementsOf(items, fi);
            var dst := if fi == ti then Remove(src, q) else ElementsOf(items, ti);
            |r| == |items| && TotalElements(r) == TotalElements(items) &&
            Contents(ElementsOf(r, ti))[Clamp(te, |dst|)] == (src[q].name, src[q].data) &&
            (fi != ti ==> |ElementsOf(r, fi)| == |src| - 1 && |ElementsOf(r, ti)| == |ElementsOf(items, ti)| + 1) &&
            (forall j :: 0 <= j < |items| && j != fi && j != ti ==> r[j] == items[j])
  {
    var src := ElementsOf(items, fi);
    var rest := Remove(src, q);
    if fi == ti {
      TotalAfterReplace(items, fi, Renumbered(SpliceInsert(rest, te, src[q])));
    } else {
      var cut := WithElements(items, fi, Renumbered(rest));
      TotalAfterReplace(items, fi, Renumbered(rest));
      TotalAfterReplace(cut, ti, Renumbered(SpliceInsert(ElementsOf(items, ti), te, src[q])));
    }
  }
}
