/** Facts about finite sets and maps that several modules use. */
module Sets {

  lemma {:induction false} SubsetSize<T>(a: set<T>, b: set<T>)
    requires a <= b
    ensures |a| <= |b|
  {
    if a != {} {
      var x :| x in a;
      SubsetSize(a - {x}, b - {x});
    }
  }

  /** A set that maps into another, no two elements alike, is no larger. */
  lemma {:induction false} InjectionSize<A, B>(a: set<A>, b: set<B>, f: A -> B)
    requires forall x :: x in a ==> f(x) in b
    requires forall x, y :: x in a && y in a && f(x) == f(y) ==> x == y
    ensures |a| <= |b|
  {
    if a != {} {
      var x :| x in a;
      InjectionSize(a - {x}, b - {f(x)}, f);
    }
  }

  /** Positions of a sequence without repetitions are as many as the elements they pick out. */
  lemma {:induction false} PickedSize<T(!new)>(xs: seq<T>, positions: set<nat>, picked: set<T>)
    requires forall p, q :: 0 <= p < q < |xs| ==> xs[p] != xs[q]
    requires forall p :: p in positions ==> p < |xs| && xs[p] in picked
    requires forall x :: x in picked ==> exists p :: p in positions && p < |xs| && xs[p] == x
    ensures |positions| == |picked|
  {
    if positions == {} {
      forall x | x in picked
        ensures false
      {
      }
    } else {
      var p := Pick(positions);
      forall x | x in picked - {xs[p]}
        ensures exists q :: q in positions - {p} && q < |xs| && xs[q] == x
      {
        var q :| q in positions && q < |xs| && xs[q] == x;
        assert q in positions - {p};
      }
      PickedSize(xs, positions - {p}, picked - {xs[p]});
    }
  }

  /** Some key of a nonempty map has the least value. */
  lemma {:induction false} LeastExists<K(!new)>(entries: map<K, int>)
    requires entries != map[]
    ensures exists m :: m in entries && forall k :: k in entries ==> entries[m] <= entries[k]
    decreases entries.Keys
  {
    assert |entries| != 0;
    var m :| m in entries;
    var rest := entries - {m};
    if rest != map[] {
      LeastExists(rest);
      var l :| l in rest && forall k :: k in rest ==> rest[l] <= rest[k];
      var least := if entries[m] <= entries[l] then m else l;
      assert forall k :: k in entries ==> k == m || k in rest;
      assert least in entries && forall k :: k in entries ==> entries[least] <= entries[k];
    } else {
      assert forall k :: k in entries && k != m ==> k in rest;
    }
  }

  ghost function LeastValue<K(!new)>(entries: map<K, int>): (least: int)
    requires entries != map[]
    ensures exists m :: m in entries && entries[m] == least
    ensures forall m :: m in entries ==> least <= entries[m]
  {
    LeastExists(entries);
    var m :| m in entries && forall k :: k in entries ==> entries[m] <= entries[k];
    entries[m]
  }

  lemma Pick<T>(s: set<T>) returns (x: T)
    requires s != {}
    ensures x in s
  {
    x :| x in s;
  }

  lemma {:induction false} LeastMemberExists(s: set<int>)
    requires s != {}
    ensures exists x :: x in s && forall y :: y in s ==> x <= y
  {
    var x := Pick(s);
    var rest := s - {x};
    if rest != {} {
      LeastMemberExists(rest);
      var l :| l in rest && forall y :: y in rest ==> l <= y;
      var least := if x <= l then x else l;
      assert forall y :: y in s ==> y == x || y in rest;
      assert least in s && forall y :: y in s ==> least <= y;
    } else {
      assert s == {x};
    }
  }

  /** SQL's MIN over a nonempty group. */
  function Least(s: set<int>): (least: int)
    requires s != {}
    ensures least in s && forall y :: y in s ==> least <= y
  {
    LeastMemberExists(s);
    var x :| x in s && forall y :: y in s ==> x <= y;
    x
  }
}
