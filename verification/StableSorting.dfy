/**
 * What a stable sort guarantees: the result is in order and elements that tie keep their places relative to each other.
 * For a strict weak order that pins down one list, whatever algorithm produced it.
 */
module StableSorting {
  ghost predicate StrictWeak<T(!new)>(less: (T, T) -> bool) {
    && (forall a :: !less(a, a))
    && (forall a, b, c :: less(a, b) && less(b, c) ==> less(a, c))
    && (forall a, b, c :: less(a, c) ==> less(a, b) || less(b, c))
  }

  predicate Tied<T>(less: (T, T) -> bool, a: T, b: T) { !less(a, b) && !less(b, a) }

  predicate InOrder<T>(less: (T, T) -> bool, s: seq<T>) {
    forall i, j | 0 <= i < j < |s| :: !less(s[j], s[i])
  }

  /** The elements that tie with x, in their order. */
  function Ties<T>(less: (T, T) -> bool, x: T, s: seq<T>): seq<T> {
    if s == [] then [] else (if Tied(less, x, s[0]) then [s[0]] else []) + Ties(less, x, s[1..])
  }

  ghost predicate IsStableSort<T(!new)>(less: (T, T) -> bool, s: seq<T>, t: seq<T>) {
    InOrder(less, t) && forall x :: Ties(less, x, t) == Ties(less, x, s)
  }

  function Insert<T>(less: (T, T) -> bool, x: T, s: seq<T>): seq<T> {
    if s == [] || !less(s[0], x) then [x] + s else [s[0]] + Insert(less, x, s[1..])
  }

  /** `sort.SliceStable`. */
  function StableSort<T>(less: (T, T) -> bool, s: seq<T>): seq<T> {
    if s == [] then [] else Insert(less, s[0], StableSort(less, s[1..]))
  }

  lemma TiesCons<T>(less: (T, T) -> bool, y: T, x: T, s: seq<T>)
    ensures Ties(less, y, [x] + s) == (if Tied(less, y, x) then [x] else []) + Ties(less, y, s)
  {
    assert ([x] + s)[1..] == s;
  }

  lemma {:induction false} InsertTies<T(!new)>(less: (T, T) -> bool, x: T, s: seq<T>, y: T)
    requires StrictWeak(less)
    ensures Ties(less, y, Insert(less, x, s)) == (if Tied(less, y, x) then [x] else []) + Ties(less, y, s)
  {
    if s == [] || !less(s[0], x) {
      TiesCons(less, y, x, s);
    } else {
      InsertTies(less, x, s[1..], y);
      TiesCons(less, y, s[0], Insert(less, x, s[1..]));
    }
  }

  lemma {:induction false} InsertMembers<T>(less: (T, T) -> bool, x: T, s: seq<T>)
    ensures multiset(Insert(less, x, s)) == multiset(s) + multiset{x}
  {
    if s != [] && less(s[0], x) {
      InsertMembers(less, x, s[1..]);
      assert s == [s[0]] + s[1..];
    }
  }

  lemma {:induction false} InsertInOrder<T(!new)>(less: (T, T) -> bool, x: T, s: seq<T>)
    requires StrictWeak(less) && InOrder(less, s)
    ensures InOrder(less, Insert(less, x, s))
  {
    if s == [] {
    } else if !less(s[0], x) {
      forall j | 0 < j < |[x] + s| ensures !less(([x] + s)[j], x) {
        assert ([x] + s)[j] == s[j - 1];
        assert j - 1 > 0 ==> !less(s[j - 1], s[0]);
      }
    } else {
      var rest := Insert(less, x, s[1..]);
      InsertInOrder(less, x, s[1..]);
      InsertMembers(less, x, s[1..]);
      forall j | 0 <= j < |rest| ensures !less(rest[j], s[0]) {
        assert rest[j] in multiset(rest);
        assert rest[j] == x || rest[j] in s[1..];
      }
    }
  }

  lemma {:induction false} SortIsStable<T(!new)>(less: (T, T) -> bool, s: seq<T>)
    requires StrictWeak(less)
    ensures IsStableSort(less, s, StableSort(less, s))
  {
    if s != [] {
      SortIsStable(less, s[1..]);
      InsertInOrder(less, s[0], StableSort(less, s[1..]));
      forall x ensures Ties(less, x, StableSort(less, s)) == Ties(less, x, s) {
        InsertTies(less, s[0], StableSort(less, s[1..]), x);
      }
    }
  }

  lemma {:induction false} TiesKeepCount<T(!new)>(less: (T, T) -> bool, x: T, s: seq<T>)
    requires StrictWeak(less)
    ensures multiset(Ties(less, x, s))[x] == multiset(s)[x]
  {
    if s != [] {
      TiesKeepCount(less, x, s[1..]);
      assert s == [s[0]] + s[1..];
    }
  }

  /** A stable sort rearranges. */
  lemma StableSortPermutes<T(!new)>(less: (T, T) -> bool, s: seq<T>, t: seq<T>)
    requires StrictWeak(less) && IsStableSort(less, s, t)
    ensures multiset(t) == multiset(s)
  {
    forall x ensures multiset(t)[x] == multiset(s)[x] {
      TiesKeepCount(less, x, s);
      TiesKeepCount(less, x, t);
    }
  }

  lemma {:induction false} FirstTie<T(!new)>(less: (T, T) -> bool, x: T, s: seq<T>) returns (i: nat)
    requires Ties(less, x, s) != []
    ensures i < |s| && Tied(less, x, s[i]) && s[i] == Ties(less, x, s)[0]
  {
    if Tied(less, x, s[0]) {
      return 0;
    }
    i := FirstTie(less, x, s[1..]);
    i := i + 1;
  }

  /** Two lists in order with the same ties start with the same element. */
  lemma SameHead<T(!new)>(less: (T, T) -> bool, t: seq<T>, u: seq<T>)
    requires StrictWeak(less) && InOrder(less, t) && InOrder(less, u) && t != []
    requires forall x :: Ties(less, x, t) == Ties(less, x, u)
    ensures u != [] && u[0] == t[0]
  {
    assert Ties(less, t[0], t)[0] == t[0];
    var i := FirstTie(less, t[0], u);
    assert Ties(less, u[0], u)[0] == u[0];
    var j := FirstTie(less, u[0], t);
    assert !less(u[i], u[0]) && !less(t[j], t[0]);
    assert Tied(less, t[0], u[0]);
    assert Ties(less, t[0], u)[0] == u[0];
  }

  /** The stable sort of a list is one list, whatever algorithm computes it. */
  lemma {:induction false} StableSortIsUnique<T(!new)>(less: (T, T) -> bool, t: seq<T>, u: seq<T>)
    requires StrictWeak(less) && InOrder(less, t) && InOrder(less, u)
    requires forall x :: Ties(less, x, t) == Ties(less, x, u)
    ensures t == u
    decreases |t|
  {
    if t == [] {
      if u != [] {
        SameHead(less, u, t);
      }
    } else {
      SameHead(less, t, u);
      forall x ensures Ties(less, x, t[1..]) == Ties(less, x, u[1..]) {
        assert Ties(less, x, t) == Ties(less, x, u);
        TailTies(less, x, t, u);
      }
      StableSortIsUnique(less, t[1..], u[1..]);
      assert t == [t[0]] + t[1..] && u == [u[0]] + u[1..];
    }
  }

  lemma TailTies<T>(less: (T, T) -> bool, x: T, t: seq<T>, u: seq<T>)
    requires t != [] && u != [] && t[0] == u[0] && Ties(less, x, t) == Ties(less, x, u)
    ensures Ties(less, x, t[1..]) == Ties(less, x, u[1..])
  {
    var head := if Tied(less, x, t[0]) then [t[0]] else [];
    assert Ties(less, x, t)[|head|..] == Ties(less, x, t[1..]);
    assert Ties(less, x, u)[|head|..] == Ties(less, x, u[1..]);
  }
}
