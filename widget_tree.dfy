/** The parent/children bookkeeping of widgets (`Widget.set_parent`): an
    arena of widgets indexed by id, each with an optional parent and an
    ordered list of children. Setting a parent removes the widget from the
    old parent's children and places it in the new parent's children:
    appended, at a non-negative index, or at a negative index counted from
    the end. */
module WidgetTree {
  import opened Wrappers
  import opened Values

  type WidgetId = nat

  /** `s` with every occurrence of `w` dropped, the others in order. */
  function Without(s: seq<WidgetId>, w: WidgetId): (r: seq<WidgetId>)
    ensures |r| <= |s|
    ensures w !in r
    ensures forall x :: x != w ==> multiset(r)[x] == multiset(s)[x]
    ensures forall x :: x in r <==> x in s && x != w
    decreases |s|
  {
    if |s| == 0 then []
    else
      assert s == [s[0]] + s[1..];
      if s[0] == w then Without(s[1..], w)
      else [s[0]] + Without(s[1..], w)
  }

  /** Index of the first occurrence of `w` in `s`. */
  function FirstIndex(s: seq<WidgetId>, w: WidgetId): (i: nat)
    requires w in s
    ensures i < |s| && s[i] == w && w !in s[..i]
  {
    if s[0] == w then 0 else 1 + FirstIndex(s[1..], w)
  }

  /** Python's `list.remove(w)`: drop the first occurrence. */
  function RemoveFirst(s: seq<WidgetId>, w: WidgetId): (r: seq<WidgetId>)
    requires w in s
    ensures |r| == |s| - 1
    ensures multiset(r) == multiset(s) - multiset{w}
  {
    var i := FirstIndex(s, w);
    assert s == s[..i] + [w] + s[i + 1..];
    s[..i] + s[i + 1..]
  }

  lemma {:induction false} WithoutConcat(a: seq<WidgetId>, b: seq<WidgetId>, w: WidgetId)
    ensures Without(a + b, w) == Without(a, w) + Without(b, w)
    decreases |a|
  {
    if |a| == 0 {
      assert a + b == b;
    } else {
      assert (a + b)[0] == a[0] && (a + b)[1..] == a[1..] + b;
      WithoutConcat(a[1..], b, w);
    }
  }

  /** Removing one occurrence does not change what removing all of them
      gives. */
  lemma RemoveFirstWithout(s: seq<WidgetId>, w: WidgetId)
    requires w in s
    ensures Without(RemoveFirst(s, w), w) == Without(s, w)
  {
    var i := FirstIndex(s, w);
    assert s == s[..i] + ([w] + s[i + 1..]);
    WithoutConcat(s[..i], [w] + s[i + 1..], w);
    WithoutConcat([w], s[i + 1..], w);
    WithoutConcat(s[..i], s[i + 1..], w);
  }

  /** Every occurrence of `w` removed from the list, one `remove` call at a
      time while `w` is still in it. */
  method RemoveAll(s: seq<WidgetId>, w: WidgetId) returns (r: seq<WidgetId>)
    ensures r == Without(s, w)
  {
    r := s;
    while w in r
      invariant Without(r, w) == Without(s, w)
      decreases |r|
    {
      RemoveFirstWithout(r, w);
      r := RemoveFirst(r, w);
    }
    NoneToRemove(r, w);
  }

  lemma {:induction false} NoneToRemove(s: seq<WidgetId>, w: WidgetId)
    requires w !in s
    ensures Without(s, w) == s
    decreases |s|
  {
    if |s| > 0 {
      NoneToRemove(s[1..], w);
      assert s == [s[0]] + s[1..];
    }
  }

  /** Where `set_parent` places the widget in a children list of length `n`
      (taken after the widget was removed from it): no position appends;
      `insert(pos, w)` clamps a non-negative position to the end; a negative
      position is applied to the list extended by a placeholder, so -1
      denotes the last place and positions before the start clamp to 0. */
  function PlaceIndex(pos: Option<int>, n: nat): (i: nat)
    ensures i <= n
    ensures pos.None? ==> i == n
    ensures pos.Some? && pos.value >= 0 ==> i == if pos.value <= n then pos.value else n
    ensures pos.Some? && pos.value < 0 ==> i == if n + 1 + pos.value >= 0 then n + 1 + pos.value else 0
    ensures pos == Some(-1) ==> i == n
  {
    match pos
    case None => n
    case Some(p) =>
      if p >= 0 then (if p <= n then p else n)
      else if n + 1 + p >= 0 then n + 1 + p else 0
  }

  /** The new children of the new parent: the widget removed, then placed at
      `PlaceIndex`. */
  function Placed(s: seq<WidgetId>, w: WidgetId, pos: Option<int>): seq<WidgetId>
  {
    var rest := Without(s, w);
    var i := PlaceIndex(pos, |rest|);
    rest[..i] + [w] + rest[i..]
  }

  /** The widget occurs exactly once, at the index `PlaceIndex` gives, and
      the other children keep their relative order. */
  lemma PlacedFacts(s: seq<WidgetId>, w: WidgetId, pos: Option<int>)
    ensures var r := Placed(s, w, pos);
      && multiset(r)[w] == 1
      && r[PlaceIndex(pos, |Without(s, w)|)] == w
      && Without(r, w) == Without(s, w)
      && |r| == |Without(s, w)| + 1
      && (forall x :: x in r <==> x in s || x == w)
  {
    PlacedOnce(s, w, pos);
    PlacedKeepsOthers(s, w, pos);
  }

  lemma PlacedOnce(s: seq<WidgetId>, w: WidgetId, pos: Option<int>)
    ensures multiset(Placed(s, w, pos))[w] == 1
  {
    var rest := Without(s, w);
    var i := PlaceIndex(pos, |rest|);
    assert rest == rest[..i] + rest[i..];
    assert w !in rest[..i] && w !in rest[i..];
    assert multiset(Placed(s, w, pos)) == multiset(rest[..i]) + multiset{w} + multiset(rest[i..]);
  }

  lemma PlacedKeepsOthers(s: seq<WidgetId>, w: WidgetId, pos: Option<int>)
    ensures Without(Placed(s, w, pos), w) == Without(s, w)
  {
    var rest := Without(s, w);
    var i := PlaceIndex(pos, |rest|);
    assert rest == rest[..i] + rest[i..];
    WithoutAround(rest[..i], rest[i..], w);
  }

  /** Removing `w` from a list that holds it once, between `a` and `b`. */
  lemma WithoutAround(a: seq<WidgetId>, b: seq<WidgetId>, w: WidgetId)
    requires w !in a && w !in b
    ensures Without(a + [w] + b, w) == a + b
  {
    WithoutConcat(a + [w], b, w);
    WithoutConcat(a, [w], w);
    NoneToRemove(a, w);
    NoneToRemove(b, w);
    assert Without([w], w) == [] by {
      assert [w][1..] == [];
    }
    assert Without(a + [w], w) == a;
  }

  /** `list.insert(i, x)` for a list of optional ids, `i` already in range. */
  function InsertOpt(s: seq<Option<WidgetId>>, i: nat, x: Option<WidgetId>): (r: seq<Option<WidgetId>>)
    requires i <= |s|
    ensures |r| == |s| + 1 && r[i] == x
    ensures r[..i] == s[..i] && r[i + 1..] == s[i..]
  {
    s[..i] + [x] + s[i..]
  }

  /** Python's normalisation of the index of `list.insert`. */
  function InsertIndex(p: int, n: nat): (i: nat)
    ensures i <= n
    ensures 0 <= p <= n ==> i == p
    ensures p > n ==> i == n
    ensures p < 0 ==> i == if n + p < 0 then 0 else n + p
  {
    if p < 0 then (if n + p < 0 then 0 else n + p) else if p > n then n else p
  }

  /** The child list seen as a list that may also hold the `None`
      placeholder. */
  function Lift(s: seq<WidgetId>): (r: seq<Option<WidgetId>>)
    ensures |r| == |s| && forall k :: 0 <= k < |s| ==> r[k] == Some(s[k])
  {
    seq(|s|, k requires 0 <= k < |s| => Some(s[k]))
  }

  /** A list free of placeholders seen as a child list. */
  function Lower(s: seq<Option<WidgetId>>): (r: seq<WidgetId>)
    requires forall k :: 0 <= k < |s| ==> s[k].Some?
    ensures |r| == |s| && forall k :: 0 <= k < |s| ==> s[k] == Some(r[k])
  {
    seq(|s|, k requires 0 <= k < |s| => s[k].value)
  }

  /** The placeholder trick for a negative position: append `None`, insert
      the widget at the normalised index, pop the last item. The popped item
      is always the placeholder, and what remains is the widget placed at
      `PlaceIndex`. */
  lemma NegativeInsert(rest: seq<WidgetId>, w: WidgetId, p: int)
    requires p < 0
    ensures var lifted := Lift(rest) + [None];
      var ins := InsertOpt(lifted, InsertIndex(p, |lifted|), Some(w));
      var i := PlaceIndex(Some(p), |rest|);
      ins[|ins| - 1] == None &&
      ins[..|ins| - 1] == Lift(rest[..i] + [w] + rest[i..])
  {
    var lifted := Lift(rest) + [None];
    var j := InsertIndex(p, |lifted|);
    var i := PlaceIndex(Some(p), |rest|);
    assert j == i;
    var ins := InsertOpt(lifted, j, Some(w));
    var target := rest[..i] + [w] + rest[i..];
    assert ins[|ins| - 1] == lifted[|lifted| - 1];
    forall k | 0 <= k < |ins| - 1
      ensures ins[k] == Lift(target)[k]
    {
      if k < i {
        assert ins[k] == ins[..i][k] == lifted[..i][k];
      } else if k > i {
        assert ins[k] == ins[i + 1..][k - i - 1] == lifted[i..][k - i - 1];
      }
    }
  }

  /** Lowering undoes lifting. */
  lemma LowerLift(s: seq<WidgetId>)
    ensures forall k :: 0 <= k < |Lift(s)| ==> Lift(s)[k].Some?
    ensures Lower(Lift(s)) == s
  {
  }

  /** Lifting undoes lowering. */
  lemma LiftLower(t: seq<Option<WidgetId>>)
    requires forall k :: 0 <= k < |t| ==> t[k].Some?
    ensures Lift(Lower(t)) == t
  {
  }

  lemma LiftInjective(a: seq<WidgetId>, b: seq<WidgetId>)
    requires Lift(a) == Lift(b)
    ensures a == b
  {
    assert |a| == |b|;
    forall k | 0 <= k < |a| ensures a[k] == b[k] {
      assert Lift(a)[k] == Lift(b)[k];
    }
  }

  /** The insertion half of `set_parent` on a copied children list:
      remove every occurrence of the widget, then append it, insert it at a
      non-negative position, or insert it at a negative position with the
      placeholder trick. */
  method Place(children: seq<WidgetId>, w: WidgetId, pos: Option<int>) returns (list: seq<WidgetId>)
    ensures list == Placed(children, w, pos)
  {
    list := RemoveAll(children, w);
    if pos.None? {
      list := list + [w];
    } else if pos.value >= 0 {
      var i := InsertIndex(pos.value, |list|);
      list := list[..i] + [w] + list[i..];
    } else {
      ghost var rest := list;
      NegativeInsert(list, w, pos.value);
      var lifted := Lift(list) + [None];
      var i := InsertIndex(pos.value, |lifted|);
      lifted := InsertOpt(lifted, i, Some(w));
      lifted := lifted[..|lifted| - 1];
      ghost var k := PlaceIndex(pos, |list|);
      list := Lower(lifted);
      assert Lift(list) == Lift(rest[..k] + [w] + rest[k..]);
      LiftInjective(list, rest[..k] + [w] + rest[k..]);
    }
  }

  /** The widget arena: each widget's parent and children. */
  class Widgets {
    var parent: map<WidgetId, Option<WidgetId>>
    var children: map<WidgetId, seq<WidgetId>>

    /** The children lists and the parent links describe the same tree
        edges: a widget with a parent occurs exactly once among that
        parent's children, and every listed child names that parent. */
    ghost predicate Valid()
      reads this
    {
      Consistent(parent, children)
    }

    constructor ()
      ensures Valid() && parent == map[] && children == map[]
    {
      parent := map[];
      children := map[];
    }

    /** Adds an orphan widget without children. */
    method Add(w: WidgetId)
      requires Valid() && w !in parent
      modifies this
      ensures Valid()
      ensures parent == old(parent)[w := None] && children == old(children)[w := []]
    {
      parent := parent[w := None];
      children := children[w := []];
    }

    /** `w.set_parent(p, pos)`. Nothing happens when the parent stays the
        same and no position is given. A parent that is neither `None` nor a
        widget raises ValueError. Otherwise the widget's parent becomes the
        new one, every occurrence of the widget is removed from the old
        parent's children, and it is inserted into the new parent's
        children at the place `pos` denotes. */
    method SetParent(w: WidgetId, p: Value, pos: Option<int>) returns (r: Outcome<Error>)
      requires Valid() && w in parent
      modifies this
      ensures Valid()
      ensures r == if ParentOf(p, old(parent)).None? then Fail(ValueError) else Pass
      ensures r.Fail? ==> parent == old(parent) && children == old(children)
      ensures r.Pass? ==>
        var np := ParentOf(p, old(parent)).value;
        parent == NewParents(old(parent), w, np, pos) &&
        children == NewChildren(old(children), w, old(parent)[w], np, pos)
    {
      var oldParent := parent[w];
      var np := ParentOf(p, parent);
      if np.Some? && np.value == oldParent && pos.None? {
        return Pass;
      }
      if np.None? {
        return Fail(ValueError);
      }
      var newParent := np.value;
      ghost var before := children;
      parent := parent[w := newParent];
      var list: seq<WidgetId> := [];
      if oldParent.Some? {
        list := RemoveAll(children[oldParent.value], w);
        if oldParent != newParent {
          children := children[oldParent.value := list];
        }
      }
      if newParent.Some? {
        if oldParent != newParent {
          list := children[newParent.value];
        }
        NoneToRemove(Without(before[newParent.value], w), w);
        list := Place(list, w, pos);
        assert list == Placed(before[newParent.value], w, pos);
        children := children[newParent.value := list];
      }
      r := Pass;
      SetParentConsistent(old(parent), old(children), w, newParent, pos);
    }
  }

  /** The values `set_parent` accepts as a parent: `None`, or a widget of
      the arena; anything else is not a widget. */
  function ParentOf(p: Value, parent: map<WidgetId, Option<WidgetId>>): (r: Option<Option<WidgetId>>)
    ensures p.Null? ==> r == Some(None)
    ensures r.Some? && r.value.Some? <==> p.Comp? && p.id in parent
    ensures r.Some? && r.value.Some? ==> r.value.value == p.id
  {
    if p.Null? then Some(None)
    else if p.Comp? && p.id in parent then Some(Some(p.id))
    else None
  }

  function NewParents(parent: map<WidgetId, Option<WidgetId>>, w: WidgetId, np: Option<WidgetId>, pos: Option<int>)
    : map<WidgetId, Option<WidgetId>>
    requires w in parent
  {
    if np == parent[w] && pos.None? then parent else parent[w := np]
  }

  /** The children lists after `set_parent`: the old parent loses the widget,
      the new parent gets it at its place (when both are the same parent the
      widget only moves). */
  function NewChildren(children: map<WidgetId, seq<WidgetId>>, w: WidgetId, op: Option<WidgetId>,
                       np: Option<WidgetId>, pos: Option<int>): map<WidgetId, seq<WidgetId>>
    requires op.Some? ==> op.value in children
    requires np.Some? ==> np.value in children
  {
    if np == op && pos.None? then children
    else
      var afterRemoval := if op.Some? && op != np then children[op.value := Without(children[op.value], w)] else children;
      if np.Some? then afterRemoval[np.value := Placed(children[np.value], w, pos)] else afterRemoval
  }

  /** Parent links and children lists agree. */
  ghost predicate Consistent(parent: map<WidgetId, Option<WidgetId>>, children: map<WidgetId, seq<WidgetId>>)
  {
    parent.Keys == children.Keys && ParentsListed(parent, children) && ChildrenBacked(parent, children)
  }

  /** A widget with a parent occurs exactly once among its parent's
      children. */
  ghost predicate ParentsListed(parent: map<WidgetId, Option<WidgetId>>, children: map<WidgetId, seq<WidgetId>>)
  {
    forall c :: c in parent && parent[c].Some? ==>
      parent[c].value in children && multiset(children[parent[c].value])[c] == 1
  }

  /** Every listed child names the list's owner as its parent. */
  ghost predicate ChildrenBacked(parent: map<WidgetId, Option<WidgetId>>, children: map<WidgetId, seq<WidgetId>>)
  {
    forall q, c :: q in children && c in children[q] ==> c in parent && parent[c] == Some(q)
  }

  /** The effect of `set_parent` on the children lists: the new parent
      lists the widget exactly once, at the place `pos` denotes; an old
      parent that is not the new one no longer lists it; both keep their
      other children in order, and every other list is untouched. */
  lemma SetParentEffect(children: map<WidgetId, seq<WidgetId>>, w: WidgetId, op: Option<WidgetId>,
                        np: Option<WidgetId>, pos: Option<int>)
    requires op.Some? ==> op.value in children
    requires np.Some? ==> np.value in children
    ensures var c := NewChildren(children, w, op, np, pos);
      && c.Keys == children.Keys
      && (np == op && pos.None? ==> c == children)
      && (np.Some? && !(np == op && pos.None?) ==>
            var l := c[np.value];
            var n := |Without(children[np.value], w)|;
            multiset(l)[w] == 1 && l[PlaceIndex(pos, n)] == w &&
            Without(l, w) == Without(children[np.value], w))
      && (op.Some? && op != np ==>
            w !in c[op.value] && c[op.value] == Without(children[op.value], w))
      && (forall q :: q in children && Some(q) != op && Some(q) != np ==> c[q] == children[q])
  {
    if !(np == op && pos.None?) {
      if np.Some? {
        NewParentList(children, w, op, np, pos);
      }
      if op.Some? && op != np {
        OldParentList(children, w, op, np, pos);
      }
      OtherLists(children, w, op, np, pos);
    }
  }

  lemma NewParentList(children: map<WidgetId, seq<WidgetId>>, w: WidgetId, op: Option<WidgetId>,
                      np: Option<WidgetId>, pos: Option<int>)
    requires op.Some? ==> op.value in children
    requires np.Some? && np.value in children
    requires !(np == op && pos.None?)
    ensures NewChildren(children, w, op, np, pos)[np.value] == Placed(children[np.value], w, pos)
    ensures var l := Placed(children[np.value], w, pos);
      var n := |Without(children[np.value], w)|;
      multiset(l)[w] == 1 && l[PlaceIndex(pos, n)] == w &&
      Without(l, w) == Without(children[np.value], w)
  {
    PlacedFacts(children[np.value], w, pos);
  }

  lemma OldParentList(children: map<WidgetId, seq<WidgetId>>, w: WidgetId, op: Option<WidgetId>,
                      np: Option<WidgetId>, pos: Option<int>)
    requires op.Some? && op.value in children
    requires np.Some? ==> np.value in children
    requires op != np
    ensures NewChildren(children, w, op, np, pos)[op.value] == Without(children[op.value], w)
  {
  }

  lemma OtherLists(children: map<WidgetId, seq<WidgetId>>, w: WidgetId, op: Option<WidgetId>,
                   np: Option<WidgetId>, pos: Option<int>)
    requires op.Some? ==> op.value in children
    requires np.Some? ==> np.value in children
    ensures NewChildren(children, w, op, np, pos).Keys == children.Keys
    ensures forall q :: q in children && Some(q) != op && Some(q) != np ==>
      NewChildren(children, w, op, np, pos)[q] == children[q]
  {
  }

  /** What `set_parent` does to one children list: the other children keep
      their counts, and the widget is listed exactly once, by the new parent
      only. */
  lemma NewChildList(children: map<WidgetId, seq<WidgetId>>, w: WidgetId, op: Option<WidgetId>,
                     np: Option<WidgetId>, pos: Option<int>, q: WidgetId)
    requires op.Some? ==> op.value in children
    requires np.Some? ==> np.value in children
    requires !(np == op && pos.None?)
    requires q in children
    requires Some(q) != op ==> w !in children[q]
    ensures var l := NewChildren(children, w, op, np, pos)[q];
      && (forall x :: x != w ==> multiset(l)[x] == multiset(children[q])[x])
      && (forall x :: x != w ==> (x in l <==> x in children[q]))
      && (w in l <==> Some(q) == np)
      && (Some(q) == np ==> multiset(l)[w] == 1)
  {
    var l := NewChildren(children, w, op, np, pos)[q];
    if Some(q) == np {
      PlacedFacts(children[q], w, pos);
      assert l == Placed(children[q], w, pos);
      forall x | x != w ensures multiset(l)[x] == multiset(children[q])[x] {
        assert multiset(Without(l, w))[x] == multiset(l)[x];
      }
    } else if Some(q) == op {
      assert l == Without(children[q], w);
    } else {
      assert l == children[q];
    }
  }

  /** `set_parent` keeps parent links and children lists in agreement. */
  lemma SetParentConsistent(parent: map<WidgetId, Option<WidgetId>>, children: map<WidgetId, seq<WidgetId>>,
                            w: WidgetId, np: Option<WidgetId>, pos: Option<int>)
    requires Consistent(parent, children) && w in parent
    requires np.Some? ==> np.value in parent
    ensures Consistent(NewParents(parent, w, np, pos), NewChildren(children, w, parent[w], np, pos))
  {
    var op := parent[w];
    if np == op && pos.None? {
      return;
    }
    forall q | q in children && Some(q) != op
      ensures w !in children[q]
    {
    }
    ParentsStayListed(parent, children, w, np, pos);
    ChildrenStayBacked(parent, children, w, np, pos);
  }

  lemma ParentsStayListed(parent: map<WidgetId, Option<WidgetId>>, children: map<WidgetId, seq<WidgetId>>,
                          w: WidgetId, np: Option<WidgetId>, pos: Option<int>)
    requires Consistent(parent, children) && w in parent
    requires np.Some? ==> np.value in parent
    requires !(np == parent[w] && pos.None?)
    requires forall q :: q in children && Some(q) != parent[w] ==> w !in children[q]
    ensures ParentsListed(parent[w := np], NewChildren(children, w, parent[w], np, pos))
  {
    var P := parent[w := np];
    var C := NewChildren(children, w, parent[w], np, pos);
    forall c | c in P && P[c].Some?
      ensures P[c].value in C && multiset(C[P[c].value])[c] == 1
    {
      NewChildList(children, w, parent[w], np, pos, P[c].value);
    }
  }

  lemma ChildrenStayBacked(parent: map<WidgetId, Option<WidgetId>>, children: map<WidgetId, seq<WidgetId>>,
                           w: WidgetId, np: Option<WidgetId>, pos: Option<int>)
    requires Consistent(parent, children) && w in parent
    requires np.Some? ==> np.value in parent
    requires !(np == parent[w] && pos.None?)
    requires forall q :: q in children && Some(q) != parent[w] ==> w !in children[q]
    ensures ChildrenBacked(parent[w := np], NewChildren(children, w, parent[w], np, pos))
  {
    var C := NewChildren(children, w, parent[w], np, pos);
    forall q, c | q in C && c in C[q]
      ensures c in parent[w := np] && parent[w := np][c] == Some(q)
    {
      ChildStaysBacked(parent, children, w, np, pos, q, c);
    }
  }

  /** One entry of a children list after `set_parent` names the list's
      owner as its parent. */
  lemma ChildStaysBacked(parent: map<WidgetId, Option<WidgetId>>, children: map<WidgetId, seq<WidgetId>>,
                         w: WidgetId, np: Option<WidgetId>, pos: Option<int>, q: WidgetId, c: WidgetId)
    requires Consistent(parent, children) && w in parent
    requires np.Some? ==> np.value in parent
    requires !(np == parent[w] && pos.None?)
    requires forall q :: q in children && Some(q) != parent[w] ==> w !in children[q]
    requires q in children && c in NewChildren(children, w, parent[w], np, pos)[q]
    ensures c in parent[w := np] && parent[w := np][c] == Some(q)
  {
    NewChildList(children, w, parent[w], np, pos, q);
    if c != w {
      assert c in children[q];
    }
  }
}
