// Walking an unordered container: an iteration order lists each element
// once, and the facts written are the blocks of the elements, one after
// another, in that order. The facts, counted with multiplicity, do not depend
// on which order the container happens to use.
module Listings {
  import opened Common

  /** `order` lists the elements of `elems`, each exactly once. */
  ghost predicate Listing<K(!new)>(order: seq<K>, elems: set<K>) {
    && (forall i, j :: 0 <= i < j < |order| ==> order[i] != order[j])
    && (forall x :: x in elems <==> x in order)
  }

  /** The blocks of the ids of `order`, one after another. */
  function Concat<K>(block: K -> seq<Fact>, order: seq<K>): seq<Fact> {
    if |order| == 0 then [] else Concat(block, order[..|order| - 1]) + block(order[|order| - 1])
  }

  /** One more id at the end adds its block at the end. */
  lemma ConcatSnoc<K>(block: K -> seq<Fact>, order: seq<K>, x: K)
    ensures Concat(block, order + [x]) == Concat(block, order) + block(x)
  {
    assert (order + [x])[..|order|] == order;
  }

  /** Writing the block of one more id after the blocks written so far. */
  lemma ConcatStep<K>(block: K -> seq<Fact>, pre: seq<Fact>, order: seq<K>, x: K, b: seq<Fact>)
    requires b == block(x)
    ensures pre + Concat(block, order) + b == pre + Concat(block, order + [x])
  {
    ConcatSnoc(block, order, x);
  }

  /** A fact is among the blocks of `order` exactly when it is in the block
      of one of its ids. */
  lemma {:induction false} ConcatHas<K>(block: K -> seq<Fact>, order: seq<K>, f: Fact)
    ensures f in Concat(block, order) <==> exists i :: 0 <= i < |order| && f in block(order[i])
  {
    if |order| > 0 {
      var o := order[..|order| - 1];
      ConcatHas(block, o, f);
      if f in Concat(block, o) {
        var i :| 0 <= i < |o| && f in block(o[i]);
        assert order[i] == o[i];
      }
      if exists i :: 0 <= i < |order| && f in block(order[i]) {
        var i :| 0 <= i < |order| && f in block(order[i]);
        if i < |order| - 1 {
          assert order[i] == o[i];
        }
      }
    }
  }

  lemma {:induction false} ConcatAppend<K>(block: K -> seq<Fact>, a: seq<K>, b: seq<K>)
    ensures Concat(block, a + b) == Concat(block, a) + Concat(block, b)
    decreases |b|
  {
    if |b| == 0 {
      assert a + b == a;
    } else {
      var b' := b[..|b| - 1];
      ConcatAppend(block, a, b');
      assert (a + b)[..|a + b| - 1] == a + b';
      var x := Concat(block, a);
      var y := Concat(block, b');
      assert x + y + block(b[|b| - 1]) == x + (y + block(b[|b| - 1]));
    }
  }

  /** Walking the ids in another order gives the same facts, counted with
      multiplicity. */
  lemma {:induction false} ConcatPermutation<K>(block: K -> seq<Fact>, o1: seq<K>, o2: seq<K>)
    requires multiset(o1) == multiset(o2)
    ensures multiset(Concat(block, o1)) == multiset(Concat(block, o2))
    decreases |o1|
  {
    if |o1| > 0 {
      var x := o1[|o1| - 1];
      var r1 := o1[..|o1| - 1];
      assert o1 == r1 + [x];
      assert x in multiset(o2);
      var k :| 0 <= k < |o2| && o2[k] == x;
      var r2 := o2[..k] + o2[k + 1..];
      RemoveAt(o2, k);
      RemoveAt(o1, |o1| - 1);
      Cancel(multiset(r1), multiset(r2), x);
      ConcatPermutation(block, r1, r2);
      SplitAt(block, o2, k);
      ConcatAppend(block, o2[..k], o2[k + 1..]);
      var a, b, c := Concat(block, o2[..k]), block(x), Concat(block, o2[k + 1..]);
      assert Concat(block, o1) == Concat(block, r1) + b;
      assert multiset(Concat(block, o1)) == multiset(a) + multiset(c) + multiset(b);
    } else {
      assert o2 == [];
    }
  }

  /** The blocks of `o`, split around position k. */
  lemma SplitAt<K>(block: K -> seq<Fact>, o: seq<K>, k: nat)
    requires k < |o|
    ensures Concat(block, o) == Concat(block, o[..k]) + (block(o[k]) + Concat(block, o[k + 1..]))
  {
    var x, pre, post := o[k], o[..k], o[k + 1..];
    assert o == pre + ([x] + post) by {
      assert o[k..] == [x] + post;
      assert o == o[..k] + o[k..];
    }
    ConcatAppend(block, pre, [x] + post);
    ConcatAppend(block, [x], post);
    ConcatSingle(block, x);
  }

  lemma ConcatSingle<K>(block: K -> seq<Fact>, x: K)
    ensures Concat(block, [x]) == block(x)
  {
    assert [x][..0] == [];
  }

  lemma Cancel<K>(a: multiset<K>, b: multiset<K>, x: K)
    requires a + multiset{x} == b + multiset{x}
    ensures a == b
  {
    assert forall y :: a[y] == (a + multiset{x})[y] - multiset{x}[y];
  }

  lemma RemoveAt<K>(o: seq<K>, k: nat)
    requires k < |o|
    ensures multiset(o) == multiset(o[..k] + o[k + 1..]) + multiset{o[k]}
  {
    assert o == o[..k] + [o[k]] + o[k + 1..];
  }

  /** Two duplicate-free listings of the same elements are permutations of
      each other. */
  lemma DistinctSameMultiset<K>(o1: seq<K>, o2: seq<K>)
    requires forall i, j :: 0 <= i < j < |o1| ==> o1[i] != o1[j]
    requires forall i, j :: 0 <= i < j < |o2| ==> o2[i] != o2[j]
    requires forall x :: x in o1 <==> x in o2
    ensures multiset(o1) == multiset(o2)
  {
    forall x ensures multiset(o1)[x] == multiset(o2)[x] {
      DistinctCount(o1, x);
      DistinctCount(o2, x);
    }
  }

  lemma {:induction false} DistinctCount<K>(o: seq<K>, x: K)
    requires forall i, j :: 0 <= i < j < |o| ==> o[i] != o[j]
    ensures multiset(o)[x] == if x in o then 1 else 0
  {
    if |o| > 0 {
      var r := o[..|o| - 1];
      assert o == r + [o[|o| - 1]];
      DistinctCount(r, x);
    }
  }


  /** In a listing every element of the container occurs exactly once and
      nothing else occurs. */
  lemma ListingCount<K(!new)>(order: seq<K>, elems: set<K>, x: K)
    requires Listing(order, elems)
    ensures multiset(order)[x] == if x in elems then 1 else 0
  {
    DistinctCount(order, x);
  }

  /** Two listings of one container hold the same blocks, counted with
      multiplicity. */
  lemma ListingsAgree<K(!new)>(block: K -> seq<Fact>, o1: seq<K>, o2: seq<K>, elems: set<K>)
    requires Listing(o1, elems) && Listing(o2, elems)
    ensures multiset(Concat(block, o1)) == multiset(Concat(block, o2))
  {
    DistinctSameMultiset(o1, o2);
    ConcatPermutation(block, o1, o2);
  }
}
