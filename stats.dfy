// Reshaping the nested dictionaries of the statistics script: `curry` turns a
// dictionary keyed by pairs into a dictionary of dictionaries, `uncurry`
// flattens it back, `flip` swaps the two halves of every pair key, and
// `convolute` swaps the outer and inner keys of a nested dictionary.
module Stats {

  /** The keys paired with outer key r. */
  function SecondsOf<R(==,!new), S(==,!new), T>(d: map<(R, S), T>, r: R): (ks: set<S>)
    ensures forall s :: s in ks <==> (r, s) in d
  {
    var ks := set k | k in d.Keys && k.0 == r :: k.1;
    assert forall s :: (r, s) in d ==> s in ks by {
      forall s | (r, s) in d ensures s in ks { var k := (r, s); assert k.0 == r && k.1 == s; }
    }
    ks
  }

  /** The outer keys of a pair-keyed dictionary. */
  function OuterKeys<R(==,!new), S(==,!new), T>(d: map<(R, S), T>): (ks: set<R>)
    ensures forall k :: k in d ==> k.0 in ks
    ensures forall r :: r in ks ==> exists k :: k in d && k.0 == r
  {
    set k | k in d.Keys :: k.0
  }

  /** curry: ret[r][s] = d[(r, s)] for every pair key (r, s). */
  function Curry<R(==,!new), S(==,!new), T>(d: map<(R, S), T>): map<R, map<S, T>> {
    map r | r in OuterKeys(d) :: map s | s in SecondsOf(d, r) :: d[(r, s)]
  }

  /** uncurry: one pair key for every inner entry; outer keys whose inner
      dictionary is empty disappear. */
  function Uncurry<R(==,!new), S(==,!new), T>(d: map<R, map<S, T>>): map<(R, S), T> {
    var keys := set r, s | r in d.Keys && s in d[r].Keys :: (r, s);
    map k | k in keys :: d[k.0][k.1]
  }

  /** flip: the pair key (r, s) becomes (s, r). */
  function Flip<R(==,!new), S(==,!new), T>(d: map<(R, S), T>): map<(S, R), T> {
    var keys := set k | k in d.Keys :: (k.1, k.0);
    map k | k in keys :: d[(k.1, k.0)]
  }

  /** convolute = curry . flip . uncurry */
  function Convolute<R(==,!new), S(==,!new), T>(d: map<R, map<S, T>>): map<S, map<R, T>> {
    Curry(Flip(Uncurry(d)))
  }

  /** A nested dictionary none of whose inner dictionaries is empty. */
  predicate NoEmptyInner<R(==,!new), S(==,!new), T>(d: map<R, map<S, T>>) {
    forall r :: r in d ==> |d[r]| > 0
  }

  // ---------------------------------------------------------------------
  // The reshaping laws
  // ---------------------------------------------------------------------

  /** Curry files every entry under its outer and inner key, and nothing
      else; no inner dictionary of the result is empty. */
  lemma CurryEntries<R(!new), S(!new), T>(d: map<(R, S), T>)
    ensures forall k :: k in d ==> k.0 in Curry(d) && k.1 in Curry(d)[k.0] && Curry(d)[k.0][k.1] == d[k]
    ensures forall r, s :: r in Curry(d) && s in Curry(d)[r] ==> (r, s) in d
    ensures NoEmptyInner(Curry(d))
  {
    var c := Curry(d);
    forall k | k in d ensures k.0 in c && k.1 in c[k.0] && c[k.0][k.1] == d[k] {
      assert (k.0, k.1) == k;
    }
    forall r | r in c ensures |c[r]| > 0 {
      var k :| k in d && k.0 == r;
      assert k.1 in c[r] by { assert (k.0, k.1) == k; }
    }
  }

  /** Uncurry has one entry per inner entry, with the same value. */
  lemma UncurryEntries<R(!new), S(!new), T>(d: map<R, map<S, T>>)
    ensures forall r, s :: r in d && s in d[r] ==> (r, s) in Uncurry(d) && Uncurry(d)[(r, s)] == d[r][s]
    ensures forall k :: k in Uncurry(d) ==> k.0 in d && k.1 in d[k.0]
  {
  }

  /** flip(d)[(s, r)] == d[(r, s)], and flip adds no key. */
  lemma FlipEntries<R(!new), S(!new), T>(d: map<(R, S), T>)
    ensures forall k :: k in d ==> (k.1, k.0) in Flip(d) && Flip(d)[(k.1, k.0)] == d[k]
    ensures forall k :: k in Flip(d) ==> (k.1, k.0) in d
  {
    forall k | k in d ensures Flip(d)[(k.1, k.0)] == d[k] {
      assert ((k.1, k.0).1, (k.1, k.0).0) == k;
    }
  }

  /** flip is an involution. */
  lemma FlipInvolution<R(!new), S(!new), T>(d: map<(R, S), T>)
    ensures Flip(Flip(d)) == d
  {
    var f := Flip(d);
    FlipEntries(d);
    FlipEntries(f);
    forall k | k in Flip(f) ensures k in d && Flip(f)[k] == d[k] {
      assert ((k.1, k.0).1, (k.1, k.0).0) == k;
    }
    forall k | k in d ensures k in Flip(f) {
      assert ((k.1, k.0).1, (k.1, k.0).0) == k;
    }
  }

  /** uncurry undoes curry. */
  lemma UncurryCurry<R(!new), S(!new), T>(d: map<(R, S), T>)
    ensures Uncurry(Curry(d)) == d
  {
    var u := Uncurry(Curry(d));
    CurryEntries(d);
    UncurryEntries(Curry(d));
    forall k | k in d ensures k in u && u[k] == d[k] {
      assert (k.0, k.1) == k;
    }
    forall k | k in u ensures k in d {
      assert (k.0, k.1) == k;
    }
  }

  /** curry undoes uncurry exactly when no inner dictionary is empty, since
      uncurry drops the outer keys of empty ones. */
  lemma CurryUncurry<R(!new), S(!new), T>(d: map<R, map<S, T>>)
    ensures Curry(Uncurry(d)) == d <==> NoEmptyInner(d)
  {
    CurryEntries(Uncurry(d));
    if NoEmptyInner(d) {
      CurryUncurryNoEmpty(d);
    }
  }

  lemma CurryUncurryNoEmpty<R(!new), S(!new), T>(d: map<R, map<S, T>>)
    requires NoEmptyInner(d)
    ensures Curry(Uncurry(d)) == d
  {
    var c := Curry(Uncurry(d));
    forall r | r in d ensures r in c && c[r] == d[r] {
      CurryUncurryAt(d, r);
    }
    forall r | r in c ensures r in d {
      CurryEntries(Uncurry(d));
      UncurryEntries(d);
      var s :| s in c[r];
      assert (r, s) in Uncurry(d);
    }
  }

  lemma CurryUncurryAt<R(!new), S(!new), T>(d: map<R, map<S, T>>, r: R)
    requires NoEmptyInner(d) && r in d
    ensures r in Curry(Uncurry(d)) && Curry(Uncurry(d))[r] == d[r]
  {
    var u := Uncurry(d);
    UncurryEntries(d);
    var s :| s in d[r];
    assert (r, s) in u;
    var inner := Curry(u)[r];
    assert inner == map s | s in SecondsOf(u, r) :: u[(r, s)];
    forall s' ensures s' in inner <==> s' in d[r] {
      if s' in d[r] {
        assert (r, s') in u;
      }
    }
    forall s' | s' in d[r] ensures inner[s'] == d[r][s'] {
      assert (r, s') in u;
    }
  }

  /** convolute(d)[s][r] == d[r][s], with no other entries. */
  lemma ConvoluteEntries<R(!new), S(!new), T>(d: map<R, map<S, T>>)
    ensures forall r, s :: r in d && s in d[r] ==> s in Convolute(d) && r in Convolute(d)[s] && Convolute(d)[s][r] == d[r][s]
    ensures forall s, r :: s in Convolute(d) && r in Convolute(d)[s] ==> r in d && s in d[r]
  {
    forall r, s | r in d && s in d[r]
      ensures s in Convolute(d) && r in Convolute(d)[s] && Convolute(d)[s][r] == d[r][s]
    {
      ConvoluteForward(d, r, s);
    }
    forall s, r | s in Convolute(d) && r in Convolute(d)[s] ensures r in d && s in d[r] {
      ConvoluteBackward(d, s, r);
    }
  }

  lemma ConvoluteForward<R(!new), S(!new), T>(d: map<R, map<S, T>>, r: R, s: S)
    requires r in d && s in d[r]
    ensures s in Convolute(d) && r in Convolute(d)[s] && Convolute(d)[s][r] == d[r][s]
  {
    var u := Uncurry(d);
    var f := Flip(u);
    UncurryEntries(d);
    FlipEntries(u);
    CurryEntries(f);
    var k := (r, s);
    assert k in u;
    assert (k.1, k.0) in f;
  }

  lemma ConvoluteBackward<R(!new), S(!new), T>(d: map<R, map<S, T>>, s: S, r: R)
    requires s in Convolute(d) && r in Convolute(d)[s]
    ensures r in d && s in d[r]
  {
    var u := Uncurry(d);
    var f := Flip(u);
    UncurryEntries(d);
    FlipEntries(u);
    CurryEntries(f);
    assert (s, r) in f;
    var k := (s, r);
    assert (k.1, k.0) in u;
  }

  /** convolute is self-inverse on dictionaries with no empty inner
      dictionary. */
  lemma ConvoluteInvolution<R(!new), S(!new), T>(d: map<R, map<S, T>>)
    requires NoEmptyInner(d)
    ensures Convolute(Convolute(d)) == d
  {
    var u := Flip(Uncurry(d));
    UncurryCurry(u);
    FlipInvolution(Uncurry(d));
    CurryUncurry(d);
  }

  // ---------------------------------------------------------------------
  // curry's loop
  // ---------------------------------------------------------------------

  /** The shape curry's loop keeps: every item filed so far sits under its
      outer and inner key, every filed entry comes from such an item, and no
      inner dictionary is empty. */
  ghost predicate FiledSoFar<R(!new), S(!new), T>(d: map<(R, S), T>, done: set<(R, S)>, ret: map<R, map<S, T>>) {
    && (forall k :: k in d && k in done ==> k.0 in ret && k.1 in ret[k.0] && ret[k.0][k.1] == d[k])
    && (forall r, s :: r in ret && s in ret[r] ==> (r, s) in d && (r, s) in done)
    && NoEmptyInner(ret)
  }

  /** curry: the loop over the items of d, filing each value under its
      outer and inner key. */
  method CurryLoop<R(==,!new), S(==,!new), T>(d: map<(R, S), T>) returns (ret: map<R, map<S, T>>)
    ensures ret == Curry(d)
  {
    ret := map[];
    var todo := d.Keys;
    while todo != {}
      invariant todo <= d.Keys
      invariant FiledSoFar(d, d.Keys - todo, ret)
      decreases |todo|
    {
      var k :| k in todo;
      var inner := if k.0 in ret then ret[k.0] else map[];
      FileOne(d, d.Keys - todo, ret, k);
      ret := ret[k.0 := inner[k.1 := d[k]]];
      todo := todo - {k};
      assert d.Keys - todo == (d.Keys - (todo + {k})) + {k};
    }
    CurryUnique(d, ret);
  }

  /** Filing item k keeps the shape. */
  lemma FileOne<R(!new), S(!new), T>(d: map<(R, S), T>, done: set<(R, S)>, ret: map<R, map<S, T>>, k: (R, S))
    requires k in d && k !in done && FiledSoFar(d, done, ret)
    ensures var inner := if k.0 in ret then ret[k.0] else map[];
      FiledSoFar(d, done + {k}, ret[k.0 := inner[k.1 := d[k]]])
  {
    var inner := if k.0 in ret then ret[k.0] else map[];
    var ret' := ret[k.0 := inner[k.1 := d[k]]];
    forall r, s | r in ret' && s in ret'[r] ensures (r, s) in d && (r, s) in done + {k} {
      if r == k.0 && s == k.1 {
        assert (r, s) == k;
      }
    }
    forall k' | k' in d && k' in done + {k}
      ensures k'.0 in ret' && k'.1 in ret'[k'.0] && ret'[k'.0][k'.1] == d[k']
    {
      if k'.0 == k.0 && k'.1 == k.1 {
        assert k' == k;
      }
    }
  }

  /** A nested dictionary with exactly curry's entries and no empty inner
      dictionary is curry's result. */
  lemma CurryUnique<R(!new), S(!new), T>(d: map<(R, S), T>, ret: map<R, map<S, T>>)
    requires FiledSoFar(d, d.Keys, ret)
    ensures ret == Curry(d)
  {
    var c := Curry(d);
    CurryEntries(d);
    forall r | r in ret ensures r in c && c[r] == ret[r] {
      CurryUniqueAt(d, ret, r);
    }
    forall r | r in c ensures r in ret {
      var s :| s in c[r];
      var k := (r, s);
      assert k in d;
    }
  }

  lemma CurryUniqueAt<R(!new), S(!new), T>(d: map<(R, S), T>, ret: map<R, map<S, T>>, r: R)
    requires FiledSoFar(d, d.Keys, ret) && r in ret
    ensures r in Curry(d) && Curry(d)[r] == ret[r]
  {
    var s :| s in ret[r];
    var k := (r, s);
    assert k in d;
    assert r in OuterKeys(d);
    var inner := map s | s in SecondsOf(d, r) :: d[(r, s)];
    assert Curry(d)[r] == inner;
    forall s' | s' in ret[r] ensures s' in inner && inner[s'] == ret[r][s'] {
      var k' := (r, s');
      assert k' in d;
    }
    forall s' | s' in inner ensures s' in ret[r] {
      var k' := (r, s');
      assert k' in d;
    }
    assert inner.Keys == ret[r].Keys;
  }
}
