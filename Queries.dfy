/** Reference definitions of the LINQ operators the stores use (Where, Sum,
    FirstOrDefault, OrderByDescending), with the facts the stores rely on. */
module Queries {

  datatype Option<T> = None | Some(value: T)

  /** Enumerable.Where: the elements of `s` satisfying `p`, in their original order. */
  function Where<T>(s: seq<T>, p: T -> bool): (r: seq<T>)
    ensures |r| <= |s|
    ensures forall i :: 0 <= i < |r| ==> r[i] in s && p(r[i])
    ensures forall i :: 0 <= i < |s| && p(s[i]) ==> s[i] in r
  {
    if s == [] then [] else (if p(s[0]) then [s[0]] else []) + Where(s[1..], p)
  }

  /** Where distributes over concatenation; with WhereSingleton this fixes the order
      of Where's result: each kept element keeps its place relative to the others. */
  lemma {:induction false} WhereAppend<T>(a: seq<T>, b: seq<T>, p: T -> bool)
    ensures Where(a + b, p) == Where(a, p) + Where(b, p)
  {
    if a == [] {
      assert a + b == b;
    } else {
      assert (a + b)[1..] == a[1..] + b;
      WhereAppend(a[1..], b, p);
    }
  }

  lemma WhereSingleton<T>(x: T, p: T -> bool)
    ensures Where([x], p) == if p(x) then [x] else []
  {
  }

  /** Where keeps everything exactly when every element satisfies the predicate. */
  lemma {:induction false} WhereAll<T>(s: seq<T>, p: T -> bool)
    requires forall i :: 0 <= i < |s| ==> p(s[i])
    ensures Where(s, p) == s
  {
    if s != [] {
      WhereAll(s[1..], p);
    }
  }

  /** Both predicates at once, as one named closure. */
  function Both<T>(p: T -> bool, q: T -> bool): T -> bool {
    x => p(x) && q(x)
  }

  /** Filtering twice is filtering once by both predicates. */
  lemma {:induction false} WhereWhere<T>(s: seq<T>, p: T -> bool, q: T -> bool)
    ensures Where(Where(s, p), q) == Where(s, Both(p, q))
  {
    if s != [] {
      WhereWhere(s[1..], p, q);
      var rest := Where(s[1..], p);
      if p(s[0]) {
        assert Where(s, p) == [s[0]] + rest;
        assert (Where(s, p))[1..] == rest;
      } else {
        assert Where(s, p) == rest;
      }
    }
  }

  /** Enumerable.Sum over a selector. */
  function Sum<T>(s: seq<T>, f: T -> real): real
  {
    if s == [] then 0.0 else f(s[0]) + Sum(s[1..], f)
  }

  lemma {:induction false} SumAppend<T>(a: seq<T>, b: seq<T>, f: T -> real)
    ensures Sum(a + b, f) == Sum(a, f) + Sum(b, f)
  {
    if a == [] {
      assert a + b == b;
    } else {
      assert (a + b)[1..] == a[1..] + b;
      SumAppend(a[1..], b, f);
    }
  }

  lemma {:induction false} SumNonNegative<T>(s: seq<T>, f: T -> real)
    requires forall i :: 0 <= i < |s| ==> f(s[i]) >= 0.0
    ensures Sum(s, f) >= 0.0
  {
    if s != [] {
      SumNonNegative(s[1..], f);
    }
  }

  /** The sum of f over the elements satisfying p, without building the filtered sequence. */
  function SumWhere<T>(s: seq<T>, p: T -> bool, f: T -> real): real
  {
    if s == [] then 0.0 else (if p(s[0]) then f(s[0]) else 0.0) + SumWhere(s[1..], p, f)
  }

  /** Sum(Where(..)), as the sources compute it, is the conditional sum. */
  lemma {:induction false} SumOfWhere<T>(s: seq<T>, p: T -> bool, f: T -> real)
    ensures Sum(Where(s, p), f) == SumWhere(s, p, f)
  {
    if s != [] {
      SumOfWhere(s[1..], p, f);
      SumAppend(if p(s[0]) then [s[0]] else [], Where(s[1..], p), f);
    }
  }

  /** Appending one element adds its value to the conditional sum when it qualifies. */
  lemma {:induction false} SumWhereAppend<T>(s: seq<T>, x: T, p: T -> bool, f: T -> real)
    ensures SumWhere(s + [x], p, f) == SumWhere(s, p, f) + (if p(x) then f(x) else 0.0)
  {
    if s != [] {
      assert (s + [x])[1..] == s[1..] + [x];
      SumWhereAppend(s[1..], x, p, f);
    } else {
      assert s + [x] == [x];
    }
  }

  lemma {:induction false} SumWhereConcat<T>(a: seq<T>, b: seq<T>, p: T -> bool, f: T -> real)
    ensures SumWhere(a + b, p, f) == SumWhere(a, p, f) + SumWhere(b, p, f)
  {
    if a == [] {
      assert a + b == b;
    } else {
      assert (a + b)[1..] == a[1..] + b;
      SumWhereConcat(a[1..], b, p, f);
    }
  }

  /** Removing one element takes its value out of the conditional sum when it qualified. */
  lemma {:induction false} SumWhereRemoveAt<T>(s: seq<T>, i: nat, p: T -> bool, f: T -> real)
    requires i < |s|
    ensures SumWhere(RemoveAt(s, i), p, f) == SumWhere(s, p, f) - (if p(s[i]) then f(s[i]) else 0.0)
  {
    var before, x, after := s[..i], s[i], s[i + 1..];
    assert s == before + ([x] + after);
    assert RemoveAt(s, i) == before + after;
    SumWhereAround(before, x, after, p, f);
  }

  lemma {:induction false} SumWhereAround<T>(before: seq<T>, x: T, after: seq<T>, p: T -> bool, f: T -> real)
    ensures SumWhere(before + ([x] + after), p, f) == SumWhere(before + after, p, f) + (if p(x) then f(x) else 0.0)
  {
    assert [x][1..] == [];
    SumWhereConcat([x], after, p, f);
    SumWhereConcat(before, [x] + after, p, f);
    SumWhereConcat(before, after, p, f);
  }

  /** The index of the first element satisfying `p`, if any. */
  function FindFirst<T>(s: seq<T>, p: T -> bool): (r: Option<nat>)
    ensures r.None? ==> forall j :: 0 <= j < |s| ==> !p(s[j])
    ensures r.Some? ==> r.value < |s| && p(s[r.value]) && forall j :: 0 <= j < r.value ==> !p(s[j])
  {
    if s == [] then None
    else if p(s[0]) then Some(0)
    else match FindFirst(s[1..], p)
      case None => None
      case Some(i) => Some(i + 1)
  }

  /** Enumerable.FirstOrDefault(p), with null as None. */
  function FirstOrDefault<T>(s: seq<T>, p: T -> bool): (r: Option<T>)
    ensures r.None? <==> forall j :: 0 <= j < |s| ==> !p(s[j])
    ensures r.Some? ==> exists i :: 0 <= i < |s| && s[i] == r.value && p(s[i]) &&
                                    forall j :: 0 <= j < i ==> !p(s[j])
  {
    match FindFirst(s, p)
    case None => None
    case Some(i) => Some(s[i])
  }

  /** The first element, if any (FirstOrDefault without a predicate). */
  function Head<T>(s: seq<T>): (r: Option<T>)
    ensures r.None? <==> s == []
    ensures r.Some? ==> r.value == s[0]
  {
    if s == [] then None else Some(s[0])
  }

  /** The sequence without the element at index i (List.Remove of that element). */
  function RemoveAt<T>(s: seq<T>, i: nat): (r: seq<T>)
    requires i < |s|
    ensures |r| == |s| - 1
    ensures forall j :: 0 <= j < i ==> r[j] == s[j]
    ensures forall j :: i <= j < |r| ==> r[j] == s[j + 1]
    ensures multiset(r) + multiset{s[i]} == multiset(s)
  {
    assert s == s[..i] + [s[i]] + s[i + 1..];
    s[..i] + s[i + 1..]
  }

  lemma {:induction false} WhereAroundRejected<T>(before: seq<T>, x: T, after: seq<T>, p: T -> bool)
    requires !p(x)
    requires forall j :: 0 <= j < |before| ==> p(before[j])
    requires forall j :: 0 <= j < |after| ==> p(after[j])
    ensures Where(before + [x] + after, p) == before + after
  {
    var front := before + [x];
    WhereAll(before, p);
    WhereSingleton(x, p);
    WhereAppend(before, [x], p);
    assert Where(front, p) == before;
    WhereAll(after, p);
    WhereAppend(front, after, p);
  }

  /** When s[k] is the only element `p` rejects, filtering by `p` is removing s[k]. */
  lemma {:induction false} WhereRejectingOne<T>(s: seq<T>, k: nat, p: T -> bool)
    requires k < |s| && !p(s[k])
    requires forall j :: 0 <= j < |s| && j != k ==> p(s[j])
    ensures Where(s, p) == RemoveAt(s, k)
  {
    var before, after := s[..k], s[k + 1..];
    assert s == before + [s[k]] + after;
    forall j | 0 <= j < |before| ensures p(before[j]) { assert before[j] == s[j]; }
    forall j | 0 <= j < |after| ensures p(after[j]) { assert after[j] == s[k + 1 + j]; }
    WhereAroundRejected(before, s[k], after, p);
  }

  // ---- OrderByDescending: a stable sort on a key, largest key first ----

  ghost predicate SortedDescending<T>(s: seq<T>, key: T -> int) {
    forall i, j :: 0 <= i < j < |s| ==> key(s[i]) >= key(s[j])
  }

  /** Places x after every element with a larger key and before the rest. */
  function InsertDescending<T>(x: T, t: seq<T>, key: T -> int): seq<T>
  {
    if t == [] || key(t[0]) <= key(x) then [x] + t
    else [t[0]] + InsertDescending(x, t[1..], key)
  }

  /** Enumerable.OrderByDescending(key): stable, so elements with equal keys keep
      their original relative order. */
  function OrderByDescending<T>(s: seq<T>, key: T -> int): seq<T>
  {
    if s == [] then [] else InsertDescending(s[0], OrderByDescending(s[1..], key), key)
  }

  lemma {:induction false} InsertDescendingMultiset<T>(x: T, t: seq<T>, key: T -> int)
    ensures multiset(InsertDescending(x, t, key)) == multiset(t) + multiset{x}
  {
    if t != [] && key(t[0]) > key(x) {
      InsertDescendingMultiset(x, t[1..], key);
      assert t == [t[0]] + t[1..];
    }
  }

  lemma {:induction false} InsertDescendingBounded<T>(x: T, t: seq<T>, key: T -> int, bound: int)
    requires key(x) <= bound
    requires forall i :: 0 <= i < |t| ==> key(t[i]) <= bound
    ensures forall i :: 0 <= i < |InsertDescending(x, t, key)| ==> key(InsertDescending(x, t, key)[i]) <= bound
  {
    if t != [] && key(t[0]) > key(x) {
      InsertDescendingBounded(x, t[1..], key, bound);
    }
  }

  lemma {:induction false} InsertDescendingSorted<T>(x: T, t: seq<T>, key: T -> int)
    requires SortedDescending(t, key)
    ensures SortedDescending(InsertDescending(x, t, key), key)
  {
    if t != [] && key(t[0]) > key(x) {
      InsertDescendingSorted(x, t[1..], key);
      InsertDescendingBounded(x, t[1..], key, key(t[0]));
    }
  }

  /** OrderByDescending sorts, largest key first, and keeps every element exactly once. */
  lemma {:induction false} OrderByDescendingSorted<T>(s: seq<T>, key: T -> int)
    ensures SortedDescending(OrderByDescending(s, key), key)
    ensures multiset(OrderByDescending(s, key)) == multiset(s)
  {
    if s != [] {
      OrderByDescendingSorted(s[1..], key);
      InsertDescendingSorted(s[0], OrderByDescending(s[1..], key), key);
      InsertDescendingMultiset(s[0], OrderByDescending(s[1..], key), key);
      assert s == [s[0]] + s[1..];
    }
  }

  /** The filter "has key k", as one named closure. */
  function KeyIs<T>(key: T -> int, k: int): T -> bool {
    x => key(x) == k
  }

  /** One step of the stability proof: x passes a head that cannot share its key. */
  lemma {:induction false} WhereJumpHead<T>(x: T, head: T, rest: seq<T>, r: seq<T>, p: T -> bool)
    requires !(p(x) && p(head))
    requires Where(r, p) == Where([x], p) + Where(rest, p)
    ensures Where([head] + r, p) == Where([x], p) + Where([head] + rest, p)
  {
    WhereAppend([head], r, p);
    WhereAppend([head], rest, p);
    WhereSingleton(head, p);
    WhereSingleton(x, p);
    var wx, wh, wr := Where([x], p), Where([head], p), Where(rest, p);
    if p(x) {
      assert wh == [];
      assert wh + (wx + wr) == wx + wr;
      assert wh + wr == wr;
    } else {
      assert wx == [];
      assert wx + (wh + wr) == wh + wr;
      assert wx + wr == wr;
    }
  }

  lemma {:induction false} InsertDescendingStable<T>(x: T, t: seq<T>, key: T -> int, k: int)
    requires SortedDescending(t, key)
    ensures Where(InsertDescending(x, t, key), KeyIs(key, k)) ==
            Where([x], KeyIs(key, k)) + Where(t, KeyIs(key, k))
  {
    var p := KeyIs(key, k);
    if t == [] || key(t[0]) <= key(x) {
      WhereAppend([x], t, p);
    } else {
      var head, rest := t[0], t[1..];
      var r := InsertDescending(x, rest, key);
      assert InsertDescending(x, t, key) == [head] + r;
      assert t == [head] + rest;
      InsertDescendingStable(x, rest, key, k);
      WhereJumpHead(x, head, rest, r, p);
    }
  }

  /** Stability: for every key, the elements with that key appear in the sorted
      sequence in the same order as in the input. */
  lemma {:induction false} OrderByDescendingStable<T>(s: seq<T>, key: T -> int, k: int)
    ensures Where(OrderByDescending(s, key), KeyIs(key, k)) == Where(s, KeyIs(key, k))
  {
    if s != [] {
      OrderByDescendingStable(s[1..], key, k);
      OrderByDescendingSorted(s[1..], key);
      InsertDescendingStable(s[0], OrderByDescending(s[1..], key), key, k);
      WhereAppend([s[0]], s[1..], KeyIs(key, k));
      assert [s[0]] + s[1..] == s;
    }
  }

  // ---- The latest element: what FirstOrDefault of OrderByDescending picks ----

  /** An independent definition of the index of the "latest" element among those
      satisfying `p`: one with the largest key, and the first such in the sequence. */
  function LatestIndex<T>(s: seq<T>, p: T -> bool, key: T -> int): (r: Option<nat>)
    ensures r.None? <==> forall j :: 0 <= j < |s| ==> !p(s[j])
    ensures r.Some? ==> r.value < |s| && p(s[r.value])
    ensures r.Some? ==> forall j :: 0 <= j < |s| && p(s[j]) ==> key(s[j]) <= key(s[r.value])
    ensures r.Some? ==> forall j :: 0 <= j < r.value && p(s[j]) ==> key(s[j]) < key(s[r.value])
  {
    if s == [] then None
    else match LatestIndex(s[1..], p, key)
      case None => if p(s[0]) then Some(0) else None
      case Some(i) =>
        if p(s[0]) && key(s[1..][i]) <= key(s[0]) then Some(0) else Some(i + 1)
  }

  /** Inserting x into a sequence puts x first unless the old first key is larger. */
  lemma HeadOfInsert<T>(x: T, t: seq<T>, key: T -> int)
    ensures Head(InsertDescending(x, t, key)) ==
            if t == [] || key(t[0]) <= key(x) then Some(x) else Some(t[0])
  {
  }

  /** The head of OrderByDescending(Where(s, p), key) is the element LatestIndex names. */
  lemma {:induction false} LatestIsHeadOfSorted<T>(s: seq<T>, p: T -> bool, key: T -> int)
    ensures Head(OrderByDescending(Where(s, p), key)) ==
            match LatestIndex(s, p, key) case None => None case Some(i) => Some(s[i])
  {
    if s != [] {
      var x, t := s[0], s[1..];
      LatestIsHeadOfSorted(t, p, key);
      var w := Where(s, p);
      var rest := OrderByDescending(Where(t, p), key);
      if p(x) {
        assert w == [x] + Where(t, p);
        assert w[0] == x && w[1..] == Where(t, p);
        assert OrderByDescending(w, key) == InsertDescending(x, rest, key);
        HeadOfInsert(x, rest, key);
      } else {
        assert w == Where(t, p);
      }
    }
  }
}
