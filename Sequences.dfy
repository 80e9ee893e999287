/** Generic operations on ordered sibling lists, shared by both storage
    backends and by both levels of the hierarchy (a project's items, an
    item's elements). Positions follow the zero-based rank convention. */
module Sequences {

  /** `s` with `x` placed at position `p`; members at or after `p` shift right. */
  function Insert<T>(s: seq<T>, p: nat, x: T): (r: seq<T>)
    requires p <= |s|
    ensures |r| == |s| + 1
    ensures r[p] == x
    ensures forall i :: 0 <= i < p ==> r[i] == s[i]
    ensures forall i :: p < i < |r| ==> r[i] == s[i - 1]
  {
    s[..p] + [x] + s[p..]
  }

  /** `s` without the member at position `p`; members after `p` shift left. */
  function Remove<T>(s: seq<T>, p: nat): (r: seq<T>)
    requires p < |s|
    ensures |r| == |s| - 1
    ensures forall i :: 0 <= i < p ==> r[i] == s[i]
    ensures forall i :: p <= i < |r| ==> r[i] == s[i + 1]
  {
    s[..p] + s[p + 1..]
  }

  /** `s` with the members at `i` and `j` exchanged. */
  function Swap<T>(s: seq<T>, i: nat, j: nat): (r: seq<T>)
    requires i < |s| && j < |s|
    ensures |r| == |s| && r[i] == s[j] && r[j] == s[i]
    ensures forall k :: 0 <= k < |s| && k != i && k != j ==> r[k] == s[k]
  {
    s[i := s[j]][j := s[i]]
  }

  /** The position an integer start argument denotes in a list of length `n`,
      as JavaScript's `Array.prototype.splice` and MongoDB's `$position`
      both read it: a negative value counts back from the end (and stops at
      the front), a value past the end means the end. */
  function Clamp(p: int, n: nat): (q: nat)
    ensures q <= n
    ensures 0 <= p <= n ==> q == p
    ensures p > n ==> q == n
    ensures p < 0 ==> q == (if n + p < 0 then 0 else n + p)
  {
    if p < 0 then (if n + p < 0 then 0 else n + p)
    else if p > n then n
    else p
  }

  /** `arr.splice(start, 0, x)`: insertion at a normalised start. */
  function SpliceInsert<T>(s: seq<T>, start: int, x: T): (r: seq<T>)
    ensures |r| == |s| + 1
    ensures r[Clamp(start, |s|)] == x
  {
    Insert(s, Clamp(start, |s|), x)
  }

  /** `arr.splice(start, 1)`: removal at a normalised start; nothing is
      removed when the start lands on the end of the list. */
  function SpliceRemove<T>(s: seq<T>, start: int): (r: seq<T>)
    ensures Clamp(start, |s|) < |s| ==> |r| == |s| - 1
    ensures Clamp(start, |s|) == |s| ==> r == s
  {
    var q := Clamp(start, |s|);
    if q < |s| then Remove(s, q) else s
  }

  /** Move the member at `p` one place towards the front: remove it, then
      insert it at `p - 1`. */
  function MoveUp<T>(s: seq<T>, p: nat): (r: seq<T>)
    requires 0 < p < |s|
  {
    Insert(Remove(s, p), p - 1, s[p])
  }

  /** Move the member at `p` one place towards the back: remove it, then
      insert it at `p + 1` of the shortened list, which for the last member
      means the end of the list again. */
  function MoveDown<T>(s: seq<T>, p: nat): (r: seq<T>)
    requires p < |s|
  {
    SpliceInsert(Remove(s, p), p + 1, s[p])
  }

  /** Remove the member at `from`, then insert it at `to`, where `to` is a
      position in the list that no longer holds it. */
  function MoveTo<T>(s: seq<T>, from: nat, to: nat): (r: seq<T>)
    requires from < |s| && to < |s|
  {
    Insert(Remove(s, from), to, s[from])
  }

  /** `$pullAll` of one value: every occurrence of `x` taken out, the rest in order. */
  function Without<T(==)>(s: seq<T>, x: T): (r: seq<T>)
    ensures x !in r
    ensures |r| <= |s|
  {
    if s == [] then []
    else if s[0] == x then Without(s[1..], x)
    else [s[0]] + Without(s[1..], x)
  }

  /** The members of `s` that lie in `live`, in order: what Mongoose's
      `populate` yields for a list of references, dropping the ones whose
      document no longer exists. */
  function Live<T(==)>(s: seq<T>, live: set<T>): (r: seq<T>)
    ensures |r| <= |s|
  {
    if s == [] then []
    else if s[0] in live then [s[0]] + Live(s[1..], live)
    else Live(s[1..], live)
  }

  /** No value occurs twice in `s`. */
  predicate Distinct<T(==)>(s: seq<T>)
  {
    forall i, j :: 0 <= i < j < |s| ==> s[i] != s[j]
  }

  /** The first position of `x` in `s`, if any. */
  function IndexOf<T(==)>(s: seq<T>, x: T): (r: Option<nat>)
    ensures r.None? <==> x !in s
    ensures r.Some? ==> r.value < |s| && s[r.value] == x
    ensures r.Some? ==> forall i :: 0 <= i < r.value ==> s[i] != x
  {
    if s == [] then None
    else if s[0] == x then Some(0)
    else match IndexOf(s[1..], x)
      case None => None
      case Some(i) => Some(i + 1)
  }

  datatype Option<T> = None | Some(value: T)

  // ---------------------------------------------------------------------
  // Properties of the moves

  /** Moving up swaps the member with its predecessor and nothing else. */
  lemma MoveUpIsSwap<T>(s: seq<T>, p: nat)
    requires 0 < p < |s|
    ensures MoveUp(s, p) == Swap(s, p - 1, p)
  {
    var r, w := MoveUp(s, p), Swap(s, p - 1, p);
    assert |r| == |w|;
    forall i | 0 <= i < |r| ensures r[i] == w[i] {
      if i < p - 1 {
      } else if i == p - 1 {
      } else if i == p {
        assert r[p] == Remove(s, p)[p - 1];
      } else {
        assert r[i] == Remove(s, p)[i - 1];
      }
    }
  }

  /** Moving down a member that is not the last swaps it with its successor. */
  lemma MoveDownIsSwap<T>(s: seq<T>, p: nat)
    requires p + 1 < |s|
    ensures MoveDown(s, p) == Swap(s, p, p + 1)
  {
    var d := Remove(s, p);
    assert Clamp(p + 1, |d|) == p + 1;
    var r, w := MoveDown(s, p), Swap(s, p, p + 1);
    assert r == Insert(d, p + 1, s[p]);
    assert |r| == |w|;
    forall i | 0 <= i < |r| ensures r[i] == w[i] {
      if i < p {
      } else if i == p {
        assert r[p] == d[p];
      } else if i == p + 1 {
      } else {
        assert r[i] == d[i - 1];
      }
    }
  }

  /** Moving down the last member removes it and appends it again: the
      order is unchanged. */
  lemma MoveDownLastIsIdentity<T>(s: seq<T>)
    requires |s| > 0
    ensures MoveDown(s, |s| - 1) == s
  {
    var p := |s| - 1;
    var d := Remove(s, p);
    assert Clamp(p + 1, |d|) == p;
    assert d == s[..p];
    assert MoveDown(s, p) == s[..p] + [s[p]];
  }

  /** Moving down at `p - 1` undoes moving up at `p`. */
  lemma MoveDownUndoesMoveUp<T>(s: seq<T>, p: nat)
    requires 0 < p < |s|
    ensures MoveDown(MoveUp(s, p), p - 1) == s
  {
    MoveUpIsSwap(s, p);
    MoveDownIsSwap(Swap(s, p - 1, p), p - 1);
  }

  /** Moving a member to where it already is changes nothing. */
  lemma MoveToSameIsIdentity<T>(s: seq<T>, p: nat)
    requires p < |s|
    ensures MoveTo(s, p, p) == s
  {
    var r := MoveTo(s, p, p);
    forall i | 0 <= i < |s| ensures r[i] == s[i] {
      if i > p {
        assert r[i] == Remove(s, p)[i - 1];
      }
    }
  }

  /** Moving a member from `from` to `to` puts it at `to`, keeps the length
      and keeps the same members: the result is a permutation. */
  lemma MoveToPermutes<T>(s: seq<T>, from: nat, to: nat)
    requires from < |s| && to < |s|
    ensures |MoveTo(s, from, to)| == |s|
    ensures MoveTo(s, from, to)[to] == s[from]
    ensures multiset(MoveTo(s, from, to)) == multiset(s)
  {
    var d := Remove(s, from);
    assert s == s[..from] + [s[from]] + s[from + 1..];
    assert d == s[..from] + s[from + 1..];
    assert multiset(d) + multiset{s[from]} == multiset(s);
    var r := MoveTo(s, from, to);
    assert r == d[..to] + [s[from]] + d[to..];
    assert d == d[..to] + d[to..];
  }

  /** Removing what was just inserted gives back the list: a paste at `p`
      is undone by a cut at `p`. */
  lemma RemoveUndoesInsert<T>(s: seq<T>, p: nat, x: T)
    requires p <= |s|
    ensures Remove(Insert(s, p, x), p) == s
  {
    var r := Remove(Insert(s, p, x), p);
    forall i | 0 <= i < |s| ensures r[i] == s[i] {
      if i >= p {
        assert r[i] == Insert(s, p, x)[i + 1];
      }
    }
  }

  /** Re-inserting what was just removed gives back the list: a cut at `p`
      is undone by a paste of the same member at `p`. */
  lemma InsertUndoesRemove<T>(s: seq<T>, p: nat)
    requires p < |s|
    ensures Insert(Remove(s, p), p, s[p]) == s
  {
    var r := Insert(Remove(s, p), p, s[p]);
    forall i | 0 <= i < |s| ensures r[i] == s[i] {
      if i > p {
        assert r[i] == Remove(s, p)[i - 1];
      }
    }
  }

  // ---------------------------------------------------------------------
  // Properties of pulling and populating

  /** When `x` occurs exactly once, at `p`, pulling every occurrence of it
      is the same as removing position `p`. */
  lemma {:induction false} WithoutSingle<T>(s: seq<T>, p: nat)
    requires p < |s| && Distinct(s)
    ensures Without(s, s[p]) == Remove(s, p)
    decreases |s|
  {
    if p == 0 {
      WithoutAbsent(s[1..], s[0]);
      assert Remove(s, 0) == s[1..];
    } else {
      assert s[1..][p - 1] == s[p];
      WithoutSingle(s[1..], p - 1);
      assert Remove(s, p) == [s[0]] + Remove(s[1..], p - 1);
    }
  }

  /** Pulling `x` keeps exactly the other values. */
  lemma {:induction false} WithoutMembers<T>(s: seq<T>, x: T)
    ensures forall y :: y in Without(s, x) <==> y in s && y != x
    decreases |s|
  {
    if s != [] {
      WithoutMembers(s[1..], x);
      assert s == [s[0]] + s[1..];
    }
  }

  /** Populating keeps exactly the live values. */
  lemma {:induction false} LiveMembers<T>(s: seq<T>, live: set<T>)
    ensures forall y :: y in Live(s, live) <==> y in s && y in live
    decreases |s|
  {
    if s != [] {
      LiveMembers(s[1..], live);
      assert s == [s[0]] + s[1..];
    }
  }

  /** Pulling a value that is absent changes nothing. */
  lemma {:induction false} WithoutAbsent<T>(s: seq<T>, x: T)
    requires x !in s
    ensures Without(s, x) == s
    decreases |s|
  {
    if s != [] {
      WithoutAbsent(s[1..], x);
      assert s == [s[0]] + s[1..];
    }
  }

  /** When every member is live, populating keeps the whole list. */
  lemma {:induction false} LiveAll<T>(s: seq<T>, live: set<T>)
    requires forall y :: y in s ==> y in live
    ensures Live(s, live) == s
    decreases |s|
  {
    if s != [] {
      assert s[0] in s;
      forall y | y in s[1..] ensures y in live { assert y in s; }
      LiveAll(s[1..], live);
      assert s == [s[0]] + s[1..];
    }
  }

  /** Removing position `p` keeps the remaining values distinct. */
  lemma RemoveDistinct<T>(s: seq<T>, p: nat)
    requires p < |s| && Distinct(s)
    ensures Distinct(Remove(s, p))
  {
    var r := Remove(s, p);
    forall i, j | 0 <= i < j < |r| ensures r[i] != r[j] {
      var i', j' := if i < p then i else i + 1, if j < p then j else j + 1;
      assert r[i] == s[i'] && r[j] == s[j'] && i' < j';
    }
  }
}
