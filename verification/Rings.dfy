/** Doubly linked circular lists, as `double_list.h` has them, and the replacement of an element. */
module Rings {

  class Link<T> {
    const item: T
    var next: Link<T>
    var prev: Link<T>

    constructor (item: T)
      ensures this.item == item && next == this && prev == this
    {
      this.item, next, prev := item, this, this;
    }
  }

  function After(i: nat, n: nat): nat {
    if i + 1 == n then 0 else i + 1
  }

  ghost predicate Linked<T>(ring: seq<Link<T>>, i: nat)
    requires i < |ring|
    reads ring
  {
    ring[i].next == ring[After(i, |ring|)] && ring[After(i, |ring|)].prev == ring[i]
  }

  ghost predicate Distinct<T>(ring: seq<Link<T>>) {
    forall i, j :: 0 <= i < j < |ring| ==> ring[i] != ring[j]
  }

  /** The elements in order, from any one of them. */
  ghost predicate Ring<T>(ring: seq<Link<T>>)
    reads ring
  {
    ring != [] && Distinct(ring) && forall i: nat :: i < |ring| ==> Linked(ring, i)
  }

  ghost predicate Apart<T>(a: seq<Link<T>>, b: seq<Link<T>>) {
    forall i, j :: 0 <= i < |a| && 0 <= j < |b| ==> a[i] != b[j]
  }

  lemma DistinctConcat<T>(a: seq<Link<T>>, b: seq<Link<T>>)
    requires Distinct(a) && Distinct(b) && Apart(a, b)
    ensures Distinct(a + b)
  {
  }

  lemma Rotated<T>(a: seq<Link<T>>, b: seq<Link<T>>)
    requires Ring(a + b)
    ensures Ring(b + a)
  {
    var r, s := a + b, b + a;
    forall i: nat | i < |s| ensures Linked(s, i) {
      assert Linked(r, if i < |b| then i + |a| else i - |b|);
    }
    forall i, j | 0 <= i < j < |s| ensures s[i] != s[j] {
      var x, y := if i < |b| then i + |a| else i - |b|, if j < |b| then j + |a| else j - |b|;
      assert r[x] != r[y];
    }
  }

  /** Appends the ring of `other` at the end of that of `self`. */
  method Append<T>(self: Link<T>, other: Link<T>, ghost a: seq<Link<T>>, ghost b: seq<Link<T>>)
    requires Ring(a) && Ring(b) && self == a[0] && other == b[0] && Apart(a, b)
    modifies a, b
    ensures Ring(a + b)
  {
    ghost var n, m := |a|, |b|;
    assert Linked(a, n - 1) && Linked(b, m - 1);
    var last := self.prev;
    self.prev.next := other;
    self.prev := other.prev;
    other.prev.next := self;
    other.prev := last;
    DistinctConcat(a, b);
    forall i: nat | i < n + m ensures Linked(a + b, i) {
      if i < n - 1 {
        assert old(Linked(a, i)) && a[i].next == a[i + 1] && a[i + 1].prev == a[i];
      } else if n <= i < n + m - 1 {
        assert old(Linked(b, i - n)) && b[i - n].next == b[i - n + 1] && b[i - n + 1].prev == b[i - n];
      }
    }
  }

  /** Copies a ring.  The new element is appended to the copy or, as some of the code has it, the copy to
      the new element; from the head on, the elements are in the original order either way. */
  method Copy<T>(start: Link<T>, newFirst: bool, ghost ring: seq<Link<T>>) returns (head: Link<T>,
      ghost copy: seq<Link<T>>)
    requires Ring(ring) && start == ring[0]
    ensures fresh(copy) && Ring(copy) && head == copy[0]
    ensures |copy| == |ring| && forall i :: 0 <= i < |ring| ==> copy[i].item == ring[i].item
  {
    head := new Link(start.item);
    copy := [head];
    assert Linked(ring, 0);
    var current := start.next;
    while current != start
      invariant 0 < |copy| <= |ring| && fresh(copy) && Ring(copy) && head == copy[0] && Ring(ring)
      invariant current == ring[if |copy| == |ring| then 0 else |copy|]
      invariant forall i :: 0 <= i < |copy| ==> copy[i].item == ring[i].item
      decreases |ring| - |copy|
    {
      assert Linked(ring, |copy|);
      var x := new Link(current.item);
      if newFirst {
        Append(x, head, [x], copy);
        Rotated([x], copy);
      } else {
        Append(head, x, copy, [x]);
      }
      copy := copy + [x];
      current := current.next;
    }
  }

  /** Takes one element out, as a ring of its own. */
  method Delete<T>(self: Link<T>, ghost a: seq<Link<T>>, ghost b: seq<Link<T>>)
    requires Ring(a + [self] + b)
    modifies a, b, self
    ensures Ring([self]) && (a + b != [] ==> Ring(a + b))
  {
    ghost var r, s, k := a + [self] + b, a + b, |a|;
    ghost var before := if k == 0 then |r| - 1 else k - 1;
    assert Linked(r, k) && Linked(r, before) && r[k] == self;
    self.prev.next := self.next;
    self.next.prev := self.prev;
    self.next, self.prev := self, self;
    forall i: nat | i < |s| ensures Linked(s, i) {
      assert old(Linked(r, if i < k then i else i + 1));
    }
    forall i, j | 0 <= i < j < |s| ensures s[i] != s[j] {
      assert r[if i < k then i else i + 1] != r[if j < k then j else j + 1];
    }
  }

  lemma ApartParts<T>(a: seq<Link<T>>, x: Link<T>, c: seq<Link<T>>, b: seq<Link<T>>)
    requires Distinct(a + [x] + c) && Apart(a + [x] + c, b)
    ensures Apart(c + a, b) && (forall y <- b :: y !in a && y !in c && y != x) && x !in c + a
  {
    var r := a + [x] + c;
    forall i, j | 0 <= i < |c + a| && 0 <= j < |b| ensures (c + a)[i] != b[j] {
      assert r[if i < |c| then i + |a| + 1 else i - |c|] != b[j];
    }
    forall i | 0 <= i < |c + a| ensures (c + a)[i] != x {
      assert r[if i < |c| then i + |a| + 1 else i - |c|] != r[|a|];
    }
    assert r[|a|] == x;
    forall y | y in b ensures y !in a && y !in c && y != x {
      var j :| 0 <= j < |b| && b[j] == y;
      assert forall i :: 0 <= i < |r| ==> r[i] != b[j];
      assert forall z <- a :: z in r;
      assert forall z <- c :: z in r;
    }
  }

  /** A list, by its first element. */
  class List<T> {
    var first: Link<T>

    constructor (first: Link<T>)
      ensures this.first == first
    {
      this.first := first;
    }
  }

  /** Replaces one element of a list by another list: the head, the last, one between them or the only
      one.  The head and the list follow if the element was the first one. */
  method Replace<T>(current: Link<T>, alias: Link<T>, head: Link<T>, list: List<T>,
                    ghost a: seq<Link<T>>, ghost b: seq<Link<T>>, ghost c: seq<Link<T>>)
    returns (current': Link<T>, head': Link<T>)
    requires Ring(a + [current] + c) && Ring(b) && alias == b[0] && Apart(a + [current] + c, b)
    requires head == (a + [current] + c)[0] == list.first
    modifies a, b, c, current, list
    ensures Ring(a + b + c) && current' == b[0] && head' == list.first == (a + b + c)[0] && Ring([current])
  {
    ghost var r := a + [current] + c;
    assert Linked(r, |a|);
    if current == current.next {
      assert r[|a|] == current && a == [] && c == [];
      assert a + b + c == b;
      list.first := alias;
      head' := alias;
    } else {
      head' := head;
      var next := current.next;
      assert next == (c + a)[0];
      ApartParts(a, current, c, b);
      Delete(current, a, c);
      forall i: nat | i < |b| ensures Linked(b, i) {
        assert old(Linked(b, i)) && b[i] in b && b[After(i, |b|)] in b;
      }
      Rotated(a, c);
      Append(next, alias, c + a, b);
      assert c + a + b == c + (a + b);
      Rotated(c, a + b);
      if head == current {
        list.first := alias;
        head' := alias;
      }
    }
    current' := alias;
  }
}
