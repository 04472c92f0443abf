/** Shape items as the edit-state engine sees them, and the two list
    operations on them that the core performs: one-level ungrouping and
    Java's ArrayList.remove(Object).

    A shape item is either a leaf shape, identified by `id`, or a group
    owning an ordered list of items. The source distinguishes the two by an
    exact class test (`getClass().equals(ShapeGroup.class)`); here that test
    is the discriminator `Group?`. */
module ShapeItems {

  datatype Item = Leaf(id: int) | Group(children: seq<Item>)

  /** What one-level ungrouping puts in place of a single top-level item:
      a group's direct children in their order, or the item itself. */
  function Expand(x: Item): seq<Item>
  {
    match x
    case Group(children) => children
    case Leaf(_) => [x]
  }

  /** One-level flattening of a top-level list: every group is replaced, where
      it stood, by its direct children; every other item is kept. */
  function Flatten1(s: seq<Item>): seq<Item>
  {
    if s == [] then [] else Expand(s[0]) + Flatten1(s[1..])
  }

  /** Number of top-level items that are not groups. */
  function NonGroupCount(s: seq<Item>): nat
  {
    if s == [] then 0 else (if s[0].Group? then 0 else 1) + NonGroupCount(s[1..])
  }

  /** Sum, over the top-level groups, of their direct-child counts. */
  function ChildCount(s: seq<Item>): nat
  {
    if s == [] then 0 else (if s[0].Group? then |s[0].children| else 0) + ChildCount(s[1..])
  }

  predicate NoGroups(s: seq<Item>)
  {
    forall i :: 0 <= i < |s| ==> !s[i].Group?
  }

  /** Flattening distributes over concatenation: it works item by item. */
  lemma {:induction false} Flatten1Append(a: seq<Item>, b: seq<Item>)
    ensures Flatten1(a + b) == Flatten1(a) + Flatten1(b)
  {
    if a == [] {
      assert a + b == b;
    } else {
      assert (a + b)[1..] == a[1..] + b;
      Flatten1Append(a[1..], b);
    }
  }

  /** Extending the processed prefix by one item appends that item's
      expansion; this is the step of the ungroup loop. */
  lemma Flatten1Step(s: seq<Item>, i: nat)
    requires i < |s|
    ensures Flatten1(s[..i + 1]) == Flatten1(s[..i]) + Expand(s[i])
  {
    assert s[..i + 1] == s[..i] + [s[i]];
    Flatten1Append(s[..i], [s[i]]);
    assert Flatten1([s[i]]) == Expand(s[i]) + Flatten1([]);
  }

  /** The expansion of item `i` sits exactly where item `i` stood: after the
      expansion of everything before it and before the expansion of
      everything after it. */
  lemma Flatten1Splice(s: seq<Item>, i: nat)
    requires i < |s|
    ensures Flatten1(s) == Flatten1(s[..i]) + Expand(s[i]) + Flatten1(s[i + 1..])
  {
    assert s == s[..i + 1] + s[i + 1..];
    Flatten1Append(s[..i + 1], s[i + 1..]);
    Flatten1Step(s, i);
  }

  /** Length of the result: one per non-group item plus the direct children
      of every group (so an empty group vanishes). */
  lemma {:induction false} Flatten1Length(s: seq<Item>)
    ensures |Flatten1(s)| == NonGroupCount(s) + ChildCount(s)
  {
    if s != [] {
      Flatten1Length(s[1..]);
    }
  }

  /** An empty group contributes nothing, wherever it stands. */
  lemma EmptyGroupVanishes(a: seq<Item>, b: seq<Item>)
    ensures Flatten1(a + [Group([])] + b) == Flatten1(a + b)
  {
    Flatten1Append(a + [Group([])], b);
    Flatten1Append(a, [Group([])]);
    Flatten1Append(a, b);
    assert Flatten1([Group([])]) == [];
  }

  /** Without any group at top level, ungrouping changes nothing. */
  lemma {:induction false} Flatten1NoGroups(s: seq<Item>)
    requires NoGroups(s)
    ensures Flatten1(s) == s
  {
    if s != [] {
      assert NoGroups(s[1..]) by {
        forall i | 0 <= i < |s[1..]| ensures !s[1..][i].Group? {
          assert s[1..][i] == s[i + 1];
        }
      }
      Flatten1NoGroups(s[1..]);
      assert s == [s[0]] + s[1..];
    }
  }

  /** Membership in the result: an item is there exactly when it is a
      top-level non-group item or a direct child of a top-level group. */
  lemma {:induction false} Flatten1Members(s: seq<Item>, x: Item)
    ensures x in Flatten1(s) <==>
      exists i :: 0 <= i < |s| && ((s[i] == x && !x.Group?) || (s[i].Group? && x in s[i].children))
  {
    if s != [] {
      Flatten1Members(s[1..], x);
      if x in Flatten1(s[1..]) {
        var i :| 0 <= i < |s[1..]| &&
          ((s[1..][i] == x && !x.Group?) || (s[1..][i].Group? && x in s[1..][i].children));
        assert s[i + 1] == s[1..][i];
      }
      if exists i :: 0 <= i < |s| && ((s[i] == x && !x.Group?) || (s[i].Group? && x in s[i].children)) {
        var i :| 0 <= i < |s| && ((s[i] == x && !x.Group?) || (s[i].Group? && x in s[i].children));
        if i > 0 {
          assert s[1..][i - 1] == s[i];
        }
      }
    }
  }

  /** Only one level is removed: a group nested directly inside a top-level
      group is an item of the result, still a group. */
  lemma NestedGroupKept(s: seq<Item>, i: nat, j: nat)
    requires i < |s| && s[i].Group?
    requires j < |s[i].children| && s[i].children[j].Group?
    ensures |Flatten1(s[..i])| + j < |Flatten1(s)|
         && Flatten1(s)[|Flatten1(s[..i])| + j] == s[i].children[j]
  {
    Flatten1Splice(s, i);
  }

  /** The ungroup example [A, Group[B, C], D] becomes [A, B, C, D]. */
  lemma UngroupExample(a: int, b: int, c: int, d: int)
    ensures Flatten1([Leaf(a), Group([Leaf(b), Leaf(c)]), Leaf(d)])
         == [Leaf(a), Leaf(b), Leaf(c), Leaf(d)]
  {
    var s := [Leaf(a), Group([Leaf(b), Leaf(c)]), Leaf(d)];
    assert s[1..][1..][1..] == [];
    assert Flatten1(s[1..][1..]) == [Leaf(d)];
    assert Flatten1(s[1..]) == [Leaf(b), Leaf(c), Leaf(d)];
  }

  /** First position of `x` in `s`. */
  function FirstIndex(s: seq<Item>, x: Item): (k: nat)
    requires x in s
    ensures k < |s| && s[k] == x
    ensures forall j :: 0 <= j < k ==> s[j] != x
  {
    if s[0] == x then 0 else 1 + FirstIndex(s[1..], x)
  }

  /** `ArrayList.remove(Object)`: drop the first element equal to `x`, if any. */
  function RemoveFirst(s: seq<Item>, x: Item): seq<Item>
  {
    if s == [] then []
    else if s[0] == x then s[1..]
    else [s[0]] + RemoveFirst(s[1..], x)
  }

  /** Removing an absent item leaves the list as it is. */
  lemma {:induction false} RemoveFirstAbsent(s: seq<Item>, x: Item)
    requires x !in s
    ensures RemoveFirst(s, x) == s
  {
    if s != [] {
      RemoveFirstAbsent(s[1..], x);
      assert s == [s[0]] + s[1..];
    }
  }

  /** Removing a present item deletes its first occurrence and nothing else. */
  lemma {:induction false} RemoveFirstPresent(s: seq<Item>, x: Item)
    requires x in s
    ensures RemoveFirst(s, x) == s[..FirstIndex(s, x)] + s[FirstIndex(s, x) + 1..]
  {
    if s[0] != x {
      RemoveFirstPresent(s[1..], x);
      var k := FirstIndex(s[1..], x);
      assert s[..k + 1] == [s[0]] + s[1..][..k];
      assert s[k + 2..] == s[1..][k + 1..];
    }
  }

  /** As a bag, removal takes away one copy of `x` (none when absent). */
  lemma RemoveFirstMultiset(s: seq<Item>, x: Item)
    ensures multiset(RemoveFirst(s, x)) == multiset(s) - multiset{x}
  {
    if x in s {
      var k := FirstIndex(s, x);
      RemoveFirstPresent(s, x);
      var before, after := s[..k], s[k + 1..];
      assert s == before + [x] + after;
      calc {
        multiset(s) - multiset{x};
        (multiset(before) + multiset{x} + multiset(after)) - multiset{x};
        multiset(before) + multiset(after);
        multiset(before + after);
      }
    } else {
      RemoveFirstAbsent(s, x);
      assert multiset(s)[x] == 0;
    }
  }
}
