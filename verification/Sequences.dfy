/** Lists as sets, and the stable insertion sort that stands for Array.prototype.sort. */
module Sequences {
  function Elements<T>(s: seq<T>): set<T> { set x | x in s }

  ghost predicate Distinct<T>(s: seq<T>) {
    forall i, j :: 0 <= i < j < |s| ==> s[i] != s[j]
  }

  /** The list holds exactly these elements, each once. */
  ghost predicate Lists<T>(s: seq<T>, of: set<T>) {
    Distinct(s) && Elements(s) == of
  }

  lemma {:induction false} DistinctCard<T>(s: seq<T>)
    requires Distinct(s)
    ensures |Elements(s)| == |s|
  {
    if s != [] {
      var n := |s| - 1;
      DistinctCard(s[..n]);
      assert Elements(s) == Elements(s[..n]) + {s[n]};
      assert s[n] !in Elements(s[..n]);
    }
  }

  /** Conversely, a list with as many elements as entries repeats none. */
  lemma {:induction false} CardDistinct<T>(s: seq<T>)
    ensures |Elements(s)| <= |s|
    ensures |Elements(s)| == |s| ==> Distinct(s)
  {
    if s != [] {
      var n := |s| - 1;
      CardDistinct(s[..n]);
      assert Elements(s) == Elements(s[..n]) + {s[n]};
      if s[n] in Elements(s[..n]) {
        assert Elements(s) == Elements(s[..n]);
      } else {
        forall i | 0 <= i < n ensures s[i] != s[n] { assert s[..n][i] in Elements(s[..n]); }
      }
    }
  }

  lemma {:induction false} SubsetCard<T>(a: set<T>, b: set<T>)
    requires a <= b
    ensures |a| <= |b|
    ensures |a| == |b| ==> a == b
  {
    assert b == a + (b - a);
    if b - a == {} { assert a == b; }
  }

  lemma ElementsTail<T>(s: seq<T>)
    requires s != []
    ensures Elements(s) == {s[0]} + Elements(s[1..])
  {
    assert s == [s[0]] + s[1..];
  }

  // ---------------------------------------------------------------- sorting

  ghost predicate StrictOrder<T(!new)>(lt: (T, T) -> bool) {
    && (forall a {:trigger lt(a, a)} :: !lt(a, a))
    && (forall a, b, c {:trigger lt(a, b), lt(b, c)} :: lt(a, b) && lt(b, c) ==> lt(a, c))
  }

  /** A comparison that may call different values equal, as localeCompare may. */
  ghost predicate WeakOrder<T(!new)>(lt: (T, T) -> bool) {
    && StrictOrder(lt)
    && (forall a, b, c {:trigger lt(a, b), lt(b, c)} :: lt(a, c) ==> lt(a, b) || lt(b, c))
  }

  /** A comparison without ties. */
  ghost predicate StrictTotal<T(!new)>(lt: (T, T) -> bool) {
    StrictOrder(lt) && forall a, b {:trigger lt(a, b)} :: a == b || lt(a, b) || lt(b, a)
  }

  lemma TotalIsWeak<T(!new)>(lt: (T, T) -> bool)
    requires StrictTotal(lt)
    ensures WeakOrder(lt)
  {
  }

  function Insert<T>(x: T, s: seq<T>, lt: (T, T) -> bool): seq<T> {
    if s == [] || !lt(s[0], x) then [x] + s else [s[0]] + Insert(x, s[1..], lt)
  }

  /** Insertion sort; equal elements keep their order. */
  function Sort<T>(s: seq<T>, lt: (T, T) -> bool): seq<T> {
    if s == [] then [] else Insert(s[0], Sort(s[1..], lt), lt)
  }

  /** In order, and tied elements by the second relation. */
  ghost predicate Arranged<T>(s: seq<T>, lt: (T, T) -> bool, earlier: (T, T) -> bool) {
    forall i, j :: 0 <= i < j < |s| ==> lt(s[i], s[j]) || (!lt(s[j], s[i]) && earlier(s[i], s[j]))
  }

  ghost predicate Ascending<T>(s: seq<T>, lt: (T, T) -> bool) {
    forall i, j :: 0 <= i < j < |s| ==> lt(s[i], s[j])
  }

  lemma {:induction false} InsertHas<T>(x: T, s: seq<T>, lt: (T, T) -> bool)
    ensures multiset(Insert(x, s, lt)) == multiset(s) + multiset{x}
  {
    if s != [] && lt(s[0], x) {
      InsertHas(x, s[1..], lt);
      assert s == [s[0]] + s[1..];
    }
  }

  lemma {:induction false} SortHas<T>(s: seq<T>, lt: (T, T) -> bool)
    ensures multiset(Sort(s, lt)) == multiset(s)
  {
    if s != [] {
      SortHas(s[1..], lt);
      InsertHas(s[0], Sort(s[1..], lt), lt);
      assert s == [s[0]] + s[1..];
    }
  }

  lemma SameMembers<T>(s: seq<T>, t: seq<T>)
    requires multiset(s) == multiset(t)
    ensures Elements(s) == Elements(t) && |s| == |t|
  {
    assert |multiset(s)| == |s| && |multiset(t)| == |t|;
    forall x ensures x in s <==> x in t {
      assert x in s <==> x in multiset(s);
      assert x in t <==> x in multiset(t);
    }
  }

  lemma PermutedIsDistinct<T>(s: seq<T>, t: seq<T>)
    requires multiset(s) == multiset(t) && Distinct(s)
    ensures Distinct(t)
  {
    SameMembers(s, t);
    DistinctCard(s);
    CardDistinct(t);
  }

  lemma {:induction false} InsertArranges<T(!new)>(x: T, s: seq<T>, lt: (T, T) -> bool, earlier: (T, T) -> bool)
    requires WeakOrder(lt) && Arranged(s, lt, earlier) && forall y :: y in s ==> earlier(x, y)
    ensures Arranged(Insert(x, s, lt), lt, earlier)
  {
    if s != [] {
      if !lt(s[0], x) {
        forall j | 0 <= j < |s| ensures !lt(s[j], x) && earlier(x, s[j]) {
          if j > 0 { assert !lt(s[j], s[0]); NoJump(lt, s[j], s[0], x); }
        }
      } else {
        InsertArranges(x, s[1..], lt, earlier);
        InsertHas(x, s[1..], lt);
        var t := Insert(x, s[1..], lt);
        forall j | 0 <= j < |t| ensures lt(s[0], t[j]) || (!lt(t[j], s[0]) && earlier(s[0], t[j])) {
          assert t[j] in multiset(t);
          if t[j] != x { assert t[j] in multiset(s[1..]); }
        }
      }
    }
  }

  /** Nothing below c is between two values that are not below one another. */
  lemma NoJump<T(!new)>(lt: (T, T) -> bool, a: T, b: T, c: T)
    requires WeakOrder(lt) && !lt(a, b) && !lt(b, c)
    ensures !lt(a, c)
  {
  }

  /** Sorting arranges; whatever relation the input list respects decides ties. */
  lemma {:induction false} SortArranges<T(!new)>(s: seq<T>, lt: (T, T) -> bool, earlier: (T, T) -> bool)
    requires WeakOrder(lt) && forall i, j :: 0 <= i < j < |s| ==> earlier(s[i], s[j])
    ensures Arranged(Sort(s, lt), lt, earlier)
  {
    if s != [] {
      var t := Sort(s[1..], lt);
      SortArranges(s[1..], lt, earlier);
      SortHas(s[1..], lt);
      forall y | y in t ensures earlier(s[0], y) {
        assert y in multiset(s[1..]);
      }
      InsertArranges(s[0], t, lt, earlier);
    }
  }

  /** With a total order a list of distinct elements comes out strictly ascending. */
  lemma SortAscends<T(!new)>(s: seq<T>, lt: (T, T) -> bool)
    requires StrictTotal(lt) && Distinct(s)
    ensures Ascending(Sort(s, lt), lt) && Elements(Sort(s, lt)) == Elements(s)
  {
    TotalIsWeak(lt);
    SortHas(s, lt);
    SameMembers(Sort(s, lt), s);
    SortArranges(s, lt, (a, b) => a != b);
  }

  lemma AscendingIsDistinct<T(!new)>(s: seq<T>, lt: (T, T) -> bool)
    requires StrictOrder(lt) && Ascending(s, lt)
    ensures Distinct(s)
  {
    forall i, j | 0 <= i < j < |s| ensures s[i] != s[j] {
      assert lt(s[i], s[j]) && !lt(s[i], s[i]);
    }
  }

  lemma AscendingHead<T(!new)>(s: seq<T>, t: seq<T>, lt: (T, T) -> bool)
    requires StrictOrder(lt) && Ascending(s, lt) && Ascending(t, lt) && Elements(s) == Elements(t)
    requires s != [] && t != []
    ensures s[0] == t[0] && Elements(s[1..]) == Elements(t[1..])
  {
    assert s[0] in Elements(t) && t[0] in Elements(s);
    var i :| 0 <= i < |t| && t[i] == s[0];
    var j :| 0 <= j < |s| && s[j] == t[0];
    AscendingTail(s, lt);
    AscendingTail(t, lt);
  }

  lemma AscendingTail<T(!new)>(s: seq<T>, lt: (T, T) -> bool)
    requires StrictOrder(lt) && Ascending(s, lt) && s != []
    ensures Elements(s[1..]) == Elements(s) - {s[0]} && Ascending(s[1..], lt)
  {
    ElementsTail(s);
    AscendingIsDistinct(s, lt);
    assert s[0] !in s[1..];
  }

  /** One ascending list for a set of elements. */
  lemma {:induction false} AscendingIsUnique<T(!new)>(s: seq<T>, t: seq<T>, lt: (T, T) -> bool)
    requires StrictOrder(lt) && Ascending(s, lt) && Ascending(t, lt) && Elements(s) == Elements(t)
    ensures s == t
  {
    AscendingIsDistinct(s, lt);
    AscendingIsDistinct(t, lt);
    DistinctCard(s);
    DistinctCard(t);
    if s != [] {
      AscendingHead(s, t, lt);
      AscendingTail(s, lt);
      AscendingTail(t, lt);
      AscendingIsUnique(s[1..], t[1..], lt);
      assert s == [s[0]] + s[1..] && t == [t[0]] + t[1..];
    }
  }

  // ---------------------------------------------------------------- ties

  /** Compare by the first order and, among ties, by the second. */
  function Then<T>(lt: (T, T) -> bool, next: (T, T) -> bool): (T, T) -> bool {
    (a, b) => lt(a, b) || (!lt(b, a) && next(a, b))
  }

  lemma ThenIsStrict<T(!new)>(lt: (T, T) -> bool, next: (T, T) -> bool)
    requires WeakOrder(lt) && StrictOrder(next)
    ensures StrictOrder(Then(lt, next))
  {
    forall a, b, c | Then(lt, next)(a, b) && Then(lt, next)(b, c) ensures Then(lt, next)(a, c) {
      if !lt(a, b) && !lt(b, c) { NoJump(lt, c, b, a); }
      else if !lt(a, c) && !lt(a, b) { NoJump(lt, b, a, c); }
      else if !lt(a, c) { NoJump(lt, a, c, b); }
    }
  }

  lemma ThenIsWeak<T(!new)>(lt: (T, T) -> bool, next: (T, T) -> bool)
    requires WeakOrder(lt) && WeakOrder(next)
    ensures WeakOrder(Then(lt, next))
  {
    ThenIsStrict(lt, next);
    forall a, b, c | Then(lt, next)(a, c) ensures Then(lt, next)(a, b) || Then(lt, next)(b, c) {
      if !lt(a, b) && !lt(b, c) {
        NoJump(lt, a, b, c);
        if !lt(b, a) && !lt(c, b) { assert next(a, b) || next(b, c); }
        else if lt(b, a) { NoJump(lt, b, c, a); }
        else { NoJump(lt, c, a, b); }
      }
    }
  }

  ghost predicate Precedes<T>(s: seq<T>, a: T, b: T) {
    exists i, j :: 0 <= i < j < |s| && s[i] == a && s[j] == b
  }

  lemma AscendingPrecedes<T(!new)>(s: seq<T>, lt: (T, T) -> bool, a: T, b: T)
    requires StrictOrder(lt) && Ascending(s, lt) && a in s && b in s && lt(a, b)
    ensures Precedes(s, a, b) && !Precedes(s, b, a)
  {
    var i :| 0 <= i < |s| && s[i] == a;
    var j :| 0 <= j < |s| && s[j] == b;
    forall x, y | 0 <= x < y < |s| && s[x] == b ensures s[y] != a {
      assert lt(s[x], s[y]);
    }
  }
}
