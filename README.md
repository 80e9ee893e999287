# Ordered-list reordering engine of the NodeCG graphics dashboard

The dashboard organises its on-air graphics as Projects, each holding an
ordered list of Items, each holding an ordered list of Elements. Every
route that creates, deletes, renames, moves, cuts or pastes a member of one
of those lists is a small list edit. The repository implements the edits twice:

- **Embedded backend** (`lib/login/index.js`, NeDB). A project is one
  document. A handler loads it and edits `items` or `items[k].elements` in
  memory with `splice`. A `for` loop then sets every sibling's `index` to its
  rank, and the whole array is written back with one `$set`.
- **Referential backend** (`lib/server/index.js`, Mongoose). Projects,
  items and elements are separate collections. Order lives only in the id
  lists `Project.items` and `Item.elements`. A move is two store calls:
  `$pullAll` of the id, then `$push` with `$each`/`$position`. The push is
  issued only when the pull reports `acknowledged`, one matched document and
  one modified document.

The project has four modules:

- `Sequences` holds the generic list operations both backends use. These are
  insert, remove, swap, and JavaScript `splice` / MongoDB `$position` start
  normalisation (`Clamp`). They also include move up, move down and move from→to,
  `$pullAll` of one value (`Without`) and Mongoose `populate` (`Live`, which
  drops ids whose document is gone). Beside them are the lemmas about these operations.
- `Naming` holds the parameter and project-name tests: presence, ASCII
  case-insensitive comparison, and the `isNaN` test on names.
- `Embedded` holds `class Database { var docs: seq<Project> }` with one
  method per route. Each method's `ensures` gives the reply and the new
  `docs` for every branch of the handler. `Renumber` is the renumbering
  loop, proved equal to `Renumbered`. Lemmas relate each handler's result
  to the list operations: ranks, contents, length, permutation and undo.
- `Referential` holds the store as a value, `World`, made of the three
  collections and the next fresh id. `Pull` and `Push` are the two store
  calls. The `…Outcome` functions give each handler's result. `class Store`
  keeps the same collections as fields, and each of its methods is proved to
  produce its handler's outcome: `PullAll`, `PushAt`, `Relocate`, the move
  routes, and create and delete. Lemmas about the outcomes cover:
  - moves swap or permute,
  - where the two backends agree and disagree,
  - the detached id after a refused move,
  - the dangling id after deleting an item.

The two backends differ, and some guards leave edge cases to `splice`:

- Moving the last member down: the embedded backend removes it and appends
  it again, writing the same order with reply `Updated`
  (`Sequences.MoveDownLastIsIdentity`); the referential backend refuses it
  (`Referential.DownRefusesLast`).
- Out-of-range positions: several embedded guards have no lower bound or
  no upper bound, so `splice` normalises the position (`Sequences.Clamp`),
  or the handler throws before it writes (`Crashed`).
- The project cap: the embedded backend accepts a new project while 50
  exist and refuses only when more than 50 do; the referential backend
  refuses once 50 exist (`Referential.CapsDisagree`).
- Overwrite: both backends act on the last project listed, not on the one
  whose name matches. In the referential backend the saved project has no
  name, so every later creation throws
  (`Referential.NamelessProjectStopsCreation`).

## Model

| member | source | states |
|---|---|---|
| Sequences.Insert | lib/login/index.js:958 | `splice(p, 0, x)` at an accepted position: `x` lands at `p`, members before keep their place, later ones shift right, length + 1 |
| Sequences.Remove | lib/login/index.js:1187 | `splice(p, 1)` at an existing position: members before keep their place, later ones shift left, length − 1 |
| Sequences.Clamp | lib/login/index.js:1742 | how `splice` and `$position` read a start: negative counts back from the end (stopping at 0), past the end means the end, otherwise as given |
| Sequences.SpliceInsert | lib/login/index.js:1807 | insertion at any integer start grows the list by one and puts the member at the normalised start |
| Sequences.SpliceRemove | lib/login/index.js:1742 | removal at any integer start shrinks the list by one, or leaves it unchanged when the start normalises to the end |
| Sequences.MoveUpIsSwap | lib/login/index.js:1185-1189 | remove at `p` then insert at `p − 1` exchanges members `p − 1` and `p` and nothing else |
| Sequences.MoveDownIsSwap | lib/login/index.js:1252-1256 | remove at `p` then insert at `p + 1` exchanges members `p` and `p + 1` when `p` is not last |
| Sequences.MoveDownLastIsIdentity | lib/login/index.js:1252-1256 | moving the last member down re-appends it, so the order is unchanged |
| Sequences.MoveDownUndoesMoveUp | lib/login/index.js:1185-1189 | moving up at `p` and then down at `p − 1` restores the list |
| Sequences.MoveToSameIsIdentity | lib/login/index.js:1344-1349 | a move from `p` to `p` changes nothing |
| Sequences.MoveToPermutes | lib/login/index.js:1344-1349 | a move keeps the length, puts the moved member at `to` and keeps the same multiset of members |
| Sequences.RemoveUndoesInsert | lib/login/index.js:1806-1807 | removing at `p` what was inserted at `p` gives the list back |
| Sequences.InsertUndoesRemove | lib/login/index.js:1741-1742 | re-inserting at `p` what was removed at `p` gives the list back |
| Sequences.Without | lib/server/index.js:991-995 | `$pullAll` leaves no occurrence of the value and never lengthens the list |
| Sequences.WithoutMembers | lib/server/index.js:991-995 | after `$pullAll` exactly the other values remain |
| Sequences.WithoutSingle | lib/server/index.js:991-995 | pulling a value that occurs once, at `p`, is removal at `p` |
| Sequences.WithoutAbsent | lib/server/index.js:991-995 | pulling an absent value changes nothing |
| Sequences.Live | lib/server/index.js:976-979 | populating never lengthens the list |
| Sequences.LiveMembers | lib/server/index.js:976-979 | populating keeps exactly the ids whose document exists |
| Sequences.LiveAll | lib/server/index.js:976-979 | when every id resolves, the populated list is the raw list |
| Naming.LowerIdempotent | lib/server/index.js:259 | lower-casing is idempotent, so a name clashes with its lower-case form |
| Naming.ArgOrZero | lib/server/index.js:504-506 | a `null` position becomes 0; a number stays as it is |
| Naming.NumericNamesRefused | lib/server/index.js:244 | every name made of digits with at most one decimal point, optionally signed, is refused |
| Naming.SpacedNumberRefused | lib/server/index.js:244 | every unsigned decimal numeral with any white space that `Number()` trims before or after it is refused too |
| Naming.LetterNamesAccepted | lib/server/index.js:244 | a name starting with an ASCII letter, lower or upper case, is accepted unless it is `undefined` or `null` |
| Embedded.Renumbered | lib/login/index.js:960-962 | every `index` equals its rank; names and contents are unchanged |
| Embedded.Renumber | lib/login/index.js:960-962 | the renumbering loop produces `Renumbered` of its input, so the list is indexed by rank |
| Embedded.RenumberedIndexed | lib/login/index.js:960-962 | renumbering a list already indexed by rank leaves it as it is |
| Embedded.RenumberedForgetsIndex | lib/login/index.js:960-962 | the renumbered list depends only on the names and contents, in order |
| Embedded.TotalAfterReplace | lib/login/index.js:1633-1638 | replacing one item's elements changes the overall element count by the change in that item's count |
| Embedded.Database.CreateProject | lib/login/index.js:606-784 | the name must be present; more than 50 projects are refused; a case-insensitive clash without overwrite is refused; overwrite replaces the last project's items with one first item; otherwise the new project is appended |
| Embedded.Database.CreateItem | lib/login/index.js:933-1026 | inserts one "New Example Item" at the normalised `selectedItem` (0 when absent) and renumbers; a missing or nameless project is answered with no write |
| Embedded.Database.RenameItem | lib/login/index.js:1029-1100 | only the selected item's name changes; a position above `max(n,1) − 1` is refused, and a negative one throws before any write |
| Embedded.Database.DeleteItem | lib/login/index.js:1103-1175 | removes the item at the normalised position and renumbers; a position above `max(n,1) − 1` is refused; a result with no items is not written |
| Embedded.Database.MoveItemUp | lib/login/index.js:1178-1242 | at `0 < p < n` swaps items `p − 1` and `p` and renumbers; `p <= 0` is refused with no write |
| Embedded.Database.MoveItemDown | lib/login/index.js:1245-1309 | at `0 <= p < n − 1` swaps `p` and `p + 1`; at `p = n − 1` writes the same order; `p > n − 1` is refused; a negative `p` throws |
| Embedded.Database.MoveItem | lib/login/index.js:1312-1392 | with both positions in `[0, n)` the result is remove at `from`, then insert at `to`, renumbered; otherwise refused |
| Embedded.Database.CutItem | lib/login/index.js:1723-1784 | `p <= 0` is refused; otherwise the item at the normalised `p` is removed and the list renumbered; an empty list is not written |
| Embedded.Database.PasteItem | lib/login/index.js:1787-1849 | `p <= 0` is refused; otherwise the given item is inserted at the normalised `p` and the list renumbered |
| Embedded.Database.MoveElementUp | lib/login/index.js:1395-1488 | within an item other than the first, swaps elements `e − 1` and `e` and renumbers that item's elements only |
| Embedded.Database.MoveElementDown | lib/login/index.js:1491-1585 | swaps elements `e` and `e + 1`, or rewrites the same order for the last element; a negative `e` throws |
| Embedded.Database.MoveElement | lib/login/index.js:1588-1720 | with both item positions valid, moves the element between or within items (`ElementMoved`); a source position that selects nothing throws |
| Embedded.Database.CutElement | lib/login/index.js:1852-1951 | removes the element at the normalised position and renumbers; an empty result is neither written nor answered |
| Embedded.Database.PasteElement | lib/login/index.js:1954-2054 | inserts at a position no greater than the last element's, then renumbers |
| Embedded.Database.CreateElement | lib/login/index.js:2056-2268 | inserts the template at `e` when it selects an element, else at 0, then renumbers; `null` positions mean 0 |
| Embedded.Database.RenameElement | lib/login/index.js:2271-2374 | only the selected element's name changes; a position out of range is refused or throws, as the handler's guard decides |
| Embedded.Database.DeleteElement | lib/login/index.js:2482-2602 | removes the element at the normalised position and renumbers; an empty list is still written |
| Embedded.Contents | lib/login/index.js:960-962 | the name and content of each member, in order, ignoring `index` |
| Embedded.ContentsRenumbered | lib/login/index.js:960-962 | renumbering keeps every member's name and content in place |
| Embedded.ContentsInsert | lib/login/index.js:958 | the contents after an insert are the old contents with the new member inserted |
| Embedded.ContentsRemove | lib/login/index.js:1742 | the contents after a removal are the old contents with that member removed |
| Embedded.ContentsMoveTo | lib/login/index.js:1344-1349 | a move acts on contents as on the list |
| Embedded.CreateItemInsertsOne | lib/login/index.js:936-962 | create item yields a list indexed by rank, one longer, with the new item at the normalised position and the others in their relative order |
| Embedded.SpliceRemoveDropsOne | lib/login/index.js:1741-1747 | delete and cut yield a list indexed by rank, one shorter, with exactly one member gone |
| Embedded.MoveItemPermutes | lib/login/index.js:1340-1355 | move item yields a list indexed by rank of the same length and the same members, with the moved item at `to` |
| Embedded.UpThenDownRestores | lib/login/index.js:1185-1309 | moving up at `p` and then down at `p − 1` restores a list indexed by rank |
| Embedded.CutThenPasteRestores | lib/login/index.js:1741-1807 | cutting at `p > 0` and pasting the cut item back at `p` restores a list indexed by rank |
| Embedded.ElementMoveKeepsTotal | lib/login/index.js:1633-1652 | moving an element keeps the overall count. The source item loses one and the destination gains one. The element arrives at the normalised target, and no other item changes |
| Referential.UpGuard | lib/server/index.js:987 | move up is accepted exactly for `0 < index < n` |
| Referential.DownGuard | lib/server/index.js:1049 | move down is accepted exactly for `0 <= index < n − 1` |
| Referential.FromGuard | lib/server/index.js:1112 | the start of a move is accepted exactly for `0 <= from < n` |
| Referential.ToGuard | lib/server/index.js:1121 | the target of a move is accepted exactly for valid positions other than the last |
| Referential.CreateGuard | lib/server/index.js:786 | element creation is accepted exactly for the positions `$position` takes as given, `0 <= p <= n` |
| Referential.FindParent | lib/server/index.js:976-985 | the lookup by id finds the first document with that id, or reports there is none |
| Referential.FirstHolding | lib/server/index.js:991-993 | the `$in` filter hits the first document whose list holds the id, or none |
| Referential.WithRefs | lib/server/index.js:997-998 | an update replaces one document's list and touches no other document |
| Referential.Spliced | lib/server/index.js:998 | `$push` with `$each` and `$position` places the pushed ids at the normalised position |
| Referential.PulledParents | lib/server/index.js:991-995 | pulling keeps every document's id and name |
| Referential.Push | lib/server/index.js:996-999 | after an upserting push the target document exists, and no child document changes |
| Referential.Store.PullAll | lib/server/index.js:991-995 | the stored lists become `Pull` of the old store, and the status is the matched/modified count |
| Referential.Store.PushAt | lib/server/index.js:996-999 | the stored lists become `Push` of the old store, and the status is the matched/modified count |
| Referential.Store.Relocate | lib/server/index.js:991-1016 | pull, then push only when `to` is accepted and the pull is confirmed; a push without one match and one modification is reported |
| Referential.Store.MoveUp | lib/server/index.js:969-1028 | the store and reply become `UpOutcome` of the old store, for items and (1155-1214) elements |
| Referential.Store.MoveDown | lib/server/index.js:1031-1090 | the store and reply become `DownOutcome`, for items and (1217-1279) elements |
| Referential.Store.MoveTo | lib/server/index.js:1093-1152 | the store and reply become `MoveToOutcome`, for items and (1282-1340) elements, with `to` checked after the pull |
| Referential.Store.CheckedMoveTo | lib/server/index.js:1093-1152 | the store and reply become `CheckedMoveToOutcome`, with `to` checked before the pull |
| Referential.Store.CreateProject | lib/server/index.js:220-386 | an invalid name is refused; 50 or more projects are refused; the name loop stops at a nameless project (throws) or a clash (`Name exists!`). Otherwise a project is saved holding one example item id, replacing the last project without a name under overwrite |
| Referential.Store.SaveWithExampleItem | lib/server/index.js:317-328 | the saved project lists a fresh example item id at position 0, and no item document is added |
| Referential.Store.CreateItem | lib/server/index.js:477-627 | the store and reply become `CreateItemOutcome` of the old store |
| Referential.Store.AttachElements | lib/server/index.js:529-556 | the store and reply become `AttachOutcome` of the old store |
| Referential.Store.SaveElements | lib/server/index.js:536-543 | one element document per template is appended, with consecutive fresh ids, and the ids are returned in template order |
| Referential.Store.DeleteItem | lib/server/index.js:668-744 | the store and reply become `DeleteItemOutcome`: only an item with live elements is deleted, and the project keeps its id |
| Referential.Store.DeleteItemPulling | lib/server/index.js:682-686 | the store and reply become `DeleteItemPullingOutcome`: delete item as written, except that a deleted item's id is also pulled from its project; an item without live elements is still left alone, and the reply is still `Deleted` |
| Referential.Store.CreateElement | lib/server/index.js:747-810 | the store and reply become `CreateElementOutcome` of the old store |
| Referential.Store.RenameElement | lib/server/index.js:813-833 | an accepted name replaces only that element's name; the status counts one match, and a modification only when the name differs |
| Referential.Store.DeleteElement | lib/server/index.js:941-966 | the store and reply become `DeleteElementOutcome`: delete the document, then pull its id |
| Referential.ElementIndex | lib/server/index.js:822-824 | the update by id finds the first element with that id, or reports there is none |
| Referential.FirstStop | lib/server/index.js:257-260 | the name loop stops at the first project that is nameless or, without overwrite, clashes; otherwise it runs through |
| Referential.FirstStopAt | lib/server/index.js:257-260 | a loop with no stop before `i` and a stop at `i` (or none at all) stops at `i` |
| Referential.ListedIsRaw | lib/server/index.js:976-979 | in an orderly list, the populated list equals the raw list |
| Referential.FindParentKeepsHit | lib/server/index.js:997-998 | changing a list does not change which document a lookup by id finds |
| Referential.PullTakesOut | lib/server/index.js:991-995 | in an orderly list, pulling the member at `i` is removal at `i` from that list only, and is confirmed |
| Referential.PullThenPushMoves | lib/server/index.js:991-999 | in an orderly list, pull-then-push is the in-memory splice out and splice in |
| Referential.UpSwaps | lib/server/index.js:987-1000 | move up at `0 < i < n` swaps ids `i − 1` and `i`, changes nothing else and is confirmed |
| Referential.DownSwaps | lib/server/index.js:1049-1062 | move down at `0 <= i < n − 1` swaps ids `i` and `i + 1` and changes nothing else |
| Referential.DownRefusesLast | lib/server/index.js:1049 | move down of the last id is refused with no write, where the embedded backend rewrites the same order |
| Referential.MoveToMatchesEmbedded | lib/server/index.js:1112-1124 | a move with both positions accepted is the embedded backend's remove-then-insert |
| Referential.MoveToDetaches | lib/server/index.js:1116-1138 | with an accepted `from` and a refused `to`, the id is pulled and an error reported, leaving the document listed nowhere |
| Referential.MoveToLastOfTwoDetaches | lib/server/index.js:1121 | in a list of two, moving the first to position 1 leaves only the second listed |
| Referential.CheckedMoveToPermutes | lib/server/index.js:1112-1124 | with `to` checked first, every `from`, `to` in `[0, n)` gives the embedded move, a permutation of the list |
| Referential.CheckedMoveToRefusesCleanly | lib/server/index.js:1112 | with `to` checked first, any refused position is answered as a position problem and writes nothing |
| Referential.ExampleItemUnlisted | lib/server/index.js:317-328 | the example item id of a new project resolves to nothing, so the populated list is empty |
| Referential.NamelessProjectStopsCreation | lib/server/index.js:257-260 | once a nameless project exists, the name loop reaches it, unless a clash comes first |
| Referential.CreateElementPlaces | lib/server/index.js:782-792 | element creation is accepted exactly for `0 <= position <= n`, and the new id lands at `position` with the others in order; otherwise nothing changes |
| Referential.CreateItemListsItem | lib/server/index.js:513-518 | the new item's id lands at the requested position of an existing project |
| Referential.FindAppended | lib/server/index.js:513-514 | a document appended with a fresh id is found at the end |
| Referential.FillAppended | lib/server/index.js:546-548 | setting the list of the appended document gives the appended document with that list |
| Referential.CreateItemSteps | lib/server/index.js:513-530 | create item saves and lists the item, then throws without template elements or attaches them |
| Referential.CreateItemWithoutElementsCrashes | lib/server/index.js:529 | without template elements the item is saved and listed at `position`, and then the handler throws |
| Referential.CreateItemPlaces | lib/server/index.js:477-567 | with template elements the item id lands at `position` and the item lists the new elements' ids in template order |
| Referential.CreateItemReachesAttach | lib/server/index.js:513-530 | with template elements, create item reaches the attach step on the listed item |
| Referential.AttachToListedItem | lib/server/index.js:529-556 | the elements are pushed into the item just listed at `position` |
| Referential.IdsAfterRemove | lib/server/index.js:704 | deleting a document keeps every other id and, with unique ids, removes its own |
| Referential.PullKeepsResolved | lib/server/index.js:954-958 | pulling an id held once keeps every list resolved against a collection that lost at most that id |
| Referential.RemoveElementMembers | lib/server/index.js:949 | `deleteOne` keeps every document with another id and adds none |
| Referential.DeleteItemLeavesDangling | lib/server/index.js:682-708 | deleting an item with live elements leaves its id in the project list, which then no longer resolves |
| Referential.DeleteLeavesIdListed | lib/server/index.js:682-708 | deleting item 2 of a project listing `[1, 2, 3]` deletes its element and leaves the list as it was |
| Referential.LiveOfSmallLists | lib/server/index.js:976-979 | with only items 1 and 3, both `[1, 2, 3]` and `[2, 1, 3]` populate to `[1, 3]` |
| Referential.PullFromSmallList | lib/server/index.js:1053-1057 | pulling item 1 from `[1, 2, 3]` gives `[2, 3]` |
| Referential.PushIntoSmallList | lib/server/index.js:1060-1062 | pushing item 1 at position 1 of `[2, 3]` gives `[2, 1, 3]` |
| Referential.DownAtZeroMovesFirst | lib/server/index.js:1049-1062 | with the dangling id, move down at 0 relocates item 1 to raw position 1 |
| Referential.RelocateIntoDangling | lib/server/index.js:1053-1062 | that relocation turns `[1, 2, 3]` into `[2, 1, 3]`, confirmed |
| Referential.MoveDownPastDangling | lib/server/index.js:1031-1090 | with the dangling id, move down at 0 reports success and writes `[2, 1, 3]` |
| Referential.DanglingReferenceStallsMoveDown | lib/server/index.js:1031-1090 | after the deletion, move down reports success but the populated order stays `[1, 3]` |
| Referential.PullingDeleteKeepsResolved | lib/server/index.js:682-686 | deleting an item and pulling its id keeps every project list resolved |
| Referential.DeleteElementKeepsResolved | lib/server/index.js:941-966 | deleting an element and pulling its id keeps every item list resolved |
| Referential.CapsDisagree | lib/server/index.js:251 | with 50 projects the embedded backend (lib/login/index.js:637) accepts a new one and this backend refuses; they agree on every other count |

## Left out

- Authentication, sessions, Discord lookups, uploads, sockets, timers,
  static files and HTTP wiring. These are library and network plumbing
  around the list engine.
- Store errors (`err` callbacks), interleaving of concurrent requests and
  the callback nesting. Each handler is one sequential method, and the
  pull/push window is two visible sequential steps.
- Random ids (`uid()`, `shortid`, ObjectIds) and `Date.now()`. Ids are
  parameters (embedded) or a fresh counter (referential).
- Project listing, prompt, rename and delete routes. These have no list
  reordering and are not part of this model.
- The schema files under `lib/server/schema/`. They only shape the
  datatypes, and element payload fields are opaque.
- Embedded.Database.CreateProject: `docs` is the `find({})` order, and the
  new document's id is a parameter.
- Embedded.Renumber: modelled on a `seq` of records rather than an array
  updated in place. The loop and its invariant are the same, but aliasing
  of the loaded array is not captured.
- Naming.Lower: only ASCII letters are folded; `toLowerCase` on other
  scripts is not modelled.
- Naming.IsNumeric: accepts blank text and signed or unsigned decimal
  numerals, after trimming the white space `Number()` trims. Hexadecimal,
  binary, octal, exponent and `Infinity` forms of `Number()` are not
  modelled, so such names are accepted by the model and refused by the
  handler.
- Referential.Store.CreateItem: when `position` selects no listed item
  after the push, the element push goes to an undefined id. This is
  modelled as `Unattached` with the elements saved and not listed.
- Referential.Store.DeleteItem: an id that is not a valid ObjectId makes
  the cast throw, and this is modelled as `Crashed`. The `deleteOne` status
  sent back is not modelled.
- Referential.Parent: the item's `expanded` and `options` flags are not
  modelled.
- Referential.Push: the `upsertedCount` of the status is not modelled.
- Referential.UpOutcome, Referential.DownOutcome, Referential.MoveToOutcome:
  the `instanceof` and `isValidObjectId` test on the selected child and its
  "Problem with saved item or id." reply (lib/server/index.js:990, 1052, 1115,
  1175, 1239, 1302) are not modelled. After `populate`, the selected child
  is an existing document with a valid id, so that branch is never taken.
- Positions outside the create routes (`Option<int>` in `Embedded.Database`
  and in `Referential.UpOutcome`, `Referential.DownOutcome`,
  `Referential.MoveToOutcome`): `None` stands for a value that fails the
  `isNaN` test or every comparison, such as `undefined` or non-numeric text.
  A `null` position is not modelled there, although `isNaN(null)` is false:
  the embedded handlers would pass it to `splice`, which reads it as 0
  (lib/login/index.js:1109-1121), and the referential guard accepts it and
  then throws on `project.items[null]._id` (lib/server/index.js:1049-1051).
  `null` is modelled only in the create routes, where it means 0
  (`Naming.Arg`).

## Findings

| source | as written | input that shows it | evidently intended | confidence | as-written member | corrected member |
|---|---|---|---|---|---|---|
| lib/server/index.js:1112-1138 (items), 1299-1325 (elements) | `to` is checked only after the `$pullAll`, and `n - 1 > to` refuses the last position | a list of two ids, `from = 0`, `to = 1`: the id is pulled, "Problem with ending index or pulling item." is sent, and the item document is listed nowhere | check `0 <= to <= n - 1` before pulling, so a refused move writes nothing and every accepted move is a permutation | high, not executed | Referential.MoveToLastOfTwoDetaches | Referential.CheckedMoveToPermutes |
| lib/server/index.js:682-686, 691-708 | the `$pullAll` of the item id from its project is commented out, so delete item leaves the id listed | project listing `[1, 2, 3]`, item 2 holding element 10: after deleting item 2, move down at index 0 reports success, writes `[2, 1, 3]` and the populated order stays `[1, 3]` | pull the item id from the project as well whenever the item is deleted, and change nothing else, so every project list still resolves | medium, not executed | Referential.DanglingReferenceStallsMoveDown | Referential.PullingDeleteKeepsResolved |
