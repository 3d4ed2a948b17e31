/** Sequence operations the model's lists are built from, with the facts the proofs need. */
module Seqs {

  /** No element occurs twice. */
  predicate Distinct<T(==)>(s: seq<T>) {
    forall i, j :: 0 <= i < j < |s| ==> s[i] != s[j]
  }

  /** The elements of `s` that satisfy `p`, in the order `s` has them (Swift's `filter`). */
  function Filter<T>(s: seq<T>, p: T -> bool): (r: seq<T>)
    ensures |r| <= |s|
    ensures forall i :: 0 <= i < |r| ==> r[i] in s && p(r[i])
    ensures forall i :: 0 <= i < |s| && p(s[i]) ==> s[i] in r
  {
    if s == [] then [] else (if p(s[0]) then [s[0]] else []) + Filter(s[1..], p)
  }

  /** The predicate "differs from `a`". */
  function NotEqualTo<T(==)>(a: T): T -> bool {
    x => x != a
  }

  /** `s` with every occurrence of `a` taken out. */
  function Without<T(==)>(s: seq<T>, a: T): (r: seq<T>)
    ensures forall i :: 0 <= i < |r| ==> r[i] in s && r[i] != a
    ensures forall i :: 0 <= i < |s| && s[i] != a ==> s[i] in r
  {
    Filter(s, NotEqualTo(a))
  }

  /** `s` with every occurrence of `a` turned into `b`, positions unchanged. */
  function Replace<T(==)>(s: seq<T>, a: T, b: T): (r: seq<T>)
    ensures |r| == |s|
    ensures forall i :: 0 <= i < |s| ==> r[i] == if s[i] == a then b else s[i]
  {
    if s == [] then [] else [if s[0] == a then b else s[0]] + Replace(s[1..], a, b)
  }

  /** Swift's `remove(at:)`: the element at `i` leaves, the others close ranks in order. */
  function RemoveAt<T>(s: seq<T>, i: nat): (r: seq<T>)
    requires i < |s|
    ensures |r| == |s| - 1
    ensures forall j :: 0 <= j < i ==> r[j] == s[j]
    ensures forall j :: i <= j < |r| ==> r[j] == s[j + 1]
    ensures multiset(r) + multiset{s[i]} == multiset(s)
  {
    assert s == s[..i] + [s[i]] + s[i + 1..];
    s[..i] + s[i + 1..]
  }

  /** The indices of `del` shifted down by one (index 0 dropped): `del` seen from `s[1..]`. */
  function Shift(del: set<nat>): (r: set<nat>)
    ensures forall d: nat :: d in r <==> d + 1 in del
  {
    var r := set d: nat | d in del && 0 < d :: (d - 1) as nat;
    assert forall d: nat :: d + 1 in del ==> d in r by {
      forall d: nat | d + 1 in del ensures d in r {
        var e: nat := d + 1;
        assert e in del && 0 < e && d == (e - 1) as nat;
      }
    }
    r
  }

  /** The elements of `s` whose index is not in `del`, in order: `s` after removing the
      elements at the offsets `del` all at once. */
  function Keep<T>(s: seq<T>, del: set<nat>): (r: seq<T>)
    ensures |r| <= |s|
    ensures forall i :: 0 <= i < |r| ==> r[i] in s
    decreases |s|
  {
    if s == [] then [] else (if 0 in del then [] else [s[0]]) + Keep(s[1..], Shift(del))
  }

  /** Two filters commute. */
  lemma {:induction false} FilterCommutes<T>(s: seq<T>, p: T -> bool, q: T -> bool)
    ensures Filter(Filter(s, p), q) == Filter(Filter(s, q), p)
  {
    if s != [] {
      var x, t := s[0], s[1..];
      assert s == [x] + t;
      var fp, fq := Filter(t, p), Filter(t, q);
      FilterCommutes(t, p, q);
      FilterCons(x, t, p);
      FilterCons(x, t, q);
      FilterCons(x, fp, q);
      FilterCons(x, fq, p);
      assert Filter(Filter(s, p), q) == if p(x) && q(x) then [x] + Filter(fp, q) else Filter(fp, q);
      assert Filter(Filter(s, q), p) == if p(x) && q(x) then [x] + Filter(fq, p) else Filter(fq, p);
    }
  }

  /** A sequence with a fresh head stays distinct. */
  lemma ConsDistinct<T>(x: T, s: seq<T>)
    requires Distinct(s) && x !in s
    ensures Distinct([x] + s)
  {
    forall i, j | 0 <= i < j < |[x] + s| ensures ([x] + s)[i] != ([x] + s)[j] {
      if i == 0 {
        assert ([x] + s)[j] == s[j - 1];
      }
    }
  }

  /** Filtering a distinct sequence gives a distinct sequence. */
  lemma {:induction false} FilterDistinct<T>(s: seq<T>, p: T -> bool)
    requires Distinct(s)
    ensures Distinct(Filter(s, p))
  {
    if s != [] {
      FilterDistinct(s[1..], p);
      if p(s[0]) {
        assert s[0] !in s[1..];
        ConsDistinct(s[0], Filter(s[1..], p));
      }
    }
  }

  /** Taking an element out of a distinct sequence leaves it distinct. */
  lemma WithoutDistinct<T>(s: seq<T>, a: T)
    requires Distinct(s)
    ensures Distinct(Without(s, a))
  {
    FilterDistinct(s, NotEqualTo(a));
  }

  /** Renaming an element that `p` treats like its new name commutes with filtering. */
  lemma {:induction false} FilterReplace<T>(s: seq<T>, a: T, b: T, p: T -> bool)
    requires p(a) == p(b)
    ensures Filter(Replace(s, a, b), p) == Replace(Filter(s, p), a, b)
  {
    if s != [] {
      var x, t := s[0], s[1..];
      var y := if x == a then b else x;
      assert p(y) == p(x);
      assert s == [x] + t;
      var rt, ft := Replace(t, a, b), Filter(t, p);
      FilterReplace(t, a, b, p);
      ReplaceCons(x, t, a, b);
      FilterCons(y, rt, p);
      FilterCons(x, t, p);
      ReplaceCons(x, ft, a, b);
      assert Filter(Replace(s, a, b), p) == if p(x) then [y] + Filter(rt, p) else Filter(rt, p);
      assert Replace(Filter(s, p), a, b) == if p(x) then [y] + Replace(ft, a, b) else Replace(ft, a, b);
    }
  }

  /** One step of `Filter`, for a sequence written as head and tail. */
  lemma FilterCons<T>(x: T, t: seq<T>, p: T -> bool)
    ensures Filter([x] + t, p) == (if p(x) then [x] else []) + Filter(t, p)
    ensures Filter([x] + t, p) == if p(x) then [x] + Filter(t, p) else Filter(t, p)
  {
    assert ([x] + t)[1..] == t;
    assert [] + Filter(t, p) == Filter(t, p);
  }

  /** One step of `Replace`, for a sequence written as head and tail. */
  lemma ReplaceCons<T>(x: T, t: seq<T>, a: T, b: T)
    ensures Replace([x] + t, a, b) == [if x == a then b else x] + Replace(t, a, b)
  {
  }

  /** Which values a renamed sequence holds: `b` if `a` was there, and otherwise the same
      values as before. */
  lemma ReplaceMembers<T>(s: seq<T>, a: T, b: T)
    ensures forall u :: u != a && u != b ==> (u in Replace(s, a, b) <==> u in s)
    ensures a in s ==> b in Replace(s, a, b)
  {
    var r := Replace(s, a, b);
    forall u | u != a && u != b ensures u in r <==> u in s {
      if u in s {
        var k :| 0 <= k < |s| && s[k] == u;
        assert r[k] == u;
      }
      if u in r {
        var k :| 0 <= k < |r| && r[k] == u;
        assert s[k] == u;
      }
    }
    if a in s {
      var k :| 0 <= k < |s| && s[k] == a;
      assert r[k] == b;
    }
  }

  /** Which values remain after taking `a` out: all the others. */
  lemma WithoutMembers<T>(s: seq<T>, a: T)
    ensures forall u :: u in Without(s, a) <==> u in s && u != a
  {
    forall u | u in s && u != a ensures u in Without(s, a) {
      var k :| 0 <= k < |s| && s[k] == u;
    }
  }

  /** In a distinct sequence, renaming the element at `i` is an update of index `i`. */
  lemma ReplaceAt<T>(s: seq<T>, i: nat, b: T)
    requires Distinct(s) && i < |s|
    ensures Replace(s, s[i], b) == s[i := b]
  {
  }

  /** Renaming to a name not yet present keeps a sequence distinct. */
  lemma ReplaceDistinct<T>(s: seq<T>, a: T, b: T)
    requires Distinct(s) && b !in s
    ensures Distinct(Replace(s, a, b))
  {
    var r := Replace(s, a, b);
    forall i, j | 0 <= i < j < |r| ensures r[i] != r[j] {
      if s[i] != a && s[j] == a {
        assert r[i] == s[i] && r[j] == b;
      } else if s[i] == a && s[j] != a {
        assert r[i] == b && r[j] == s[j];
      }
    }
  }

  /** In a distinct sequence, taking out the element at `i` is `remove(at: i)`. */
  lemma {:induction false} WithoutAt<T>(s: seq<T>, i: nat)
    requires Distinct(s) && i < |s|
    ensures Without(s, s[i]) == RemoveAt(s, i)
  {
    var a, x, t := s[i], s[0], s[1..];
    assert s == [x] + t;
    WithoutCons(x, t, a);
    assert Distinct(t) by {
      forall j, k | 0 <= j < k < |t| ensures t[j] != t[k] {
        assert t[j] == s[j + 1] && t[k] == s[k + 1];
      }
    }
    if i == 0 {
      assert a !in t;
      WithoutAbsent(t, a);
    } else {
      assert x != a;
      assert t[i - 1] == a;
      WithoutAt(t, i - 1);
      RemoveAtCons(x, t, i - 1);
    }
  }

  /** One step of `Without`, for a sequence written as head and tail. */
  lemma WithoutCons<T>(x: T, t: seq<T>, a: T)
    ensures Without([x] + t, a) == (if x != a then [x] else []) + Without(t, a)
  {
    assert ([x] + t)[1..] == t;
  }

  /** Taking out an element that is not there changes nothing. */
  lemma {:induction false} WithoutAbsent<T>(s: seq<T>, a: T)
    requires a !in s
    ensures Without(s, a) == s
  {
    if s != [] {
      WithoutAbsent(s[1..], a);
      assert s == [s[0]] + s[1..];
      WithoutCons(s[0], s[1..], a);
    }
  }

  /** With nothing to delete, `Keep` is the identity. */
  lemma {:induction false} KeepNothing<T>(s: seq<T>)
    ensures Keep(s, {}) == s
  {
    if s != [] {
      assert Shift({}) == {};
      KeepNothing(s[1..]);
    }
  }

  /** In a sequence without repeats, the element at index `i` survives exactly when `i` is
      not deleted. */
  lemma {:induction false} KeepMembers<T>(s: seq<T>, del: set<nat>, i: nat)
    requires Distinct(s) && i < |s|
    ensures s[i] in Keep(s, del) <==> i !in del
    decreases |s|
  {
    var rest := Keep(s[1..], Shift(del));
    assert s[0] !in s[1..];
    assert s[0] !in rest;
    if i > 0 {
      assert Distinct(s[1..]);
      KeepMembers(s[1..], Shift(del), i - 1);
      assert s[i] == s[1..][i - 1];
      assert s[i] != s[0];
    }
  }

  /** Indices below every deleted offset keep their element and position. */
  lemma {:induction false} KeepBelow<T>(s: seq<T>, del: set<nat>, o: nat)
    requires o < |s|
    requires forall d :: d in del ==> o < d
    ensures o < |Keep(s, del)| && Keep(s, del)[o] == s[o]
  {
    if o > 0 {
      KeepBelow(s[1..], Shift(del), o - 1);
    }
  }

  /** Removing index `o` from a list whose deletions all lie above `o` is the same as
      deleting `o` together with them from the original. */
  lemma {:induction false} RemoveAtKeep<T>(s: seq<T>, del: set<nat>, o: nat)
    requires o < |s|
    requires forall d :: d in del ==> o < d
    ensures o < |Keep(s, del)|
    ensures RemoveAt(Keep(s, del), o) == Keep(s, del + {o})
  {
    KeepBelow(s, del, o);
    var rest := Keep(s[1..], Shift(del));
    assert 0 !in del;
    assert Keep(s, del) == [s[0]] + rest;
    if o == 0 {
      assert Shift(del + {0}) == Shift(del);
      assert Keep(s, del + {0}) == rest;
    } else {
      var del' := Shift(del);
      assert Shift(del + {o}) == del' + {o - 1};
      assert forall d :: d in del' ==> o - 1 < d;
      RemoveAtKeep(s[1..], del', o - 1);
      assert Keep(s, del + {o}) == [s[0]] + Keep(s[1..], del' + {o - 1});
      RemoveAtCons(s[0], rest, o - 1);
    }
  }

  /** Removing below the head of a sequence leaves the head in front. */
  lemma RemoveAtCons<T>(x: T, t: seq<T>, i: nat)
    requires i < |t|
    ensures RemoveAt([x] + t, i + 1) == [x] + RemoveAt(t, i)
  {
    assert ([x] + t)[..i + 1] == [x] + t[..i];
    assert ([x] + t)[i + 2..] == t[i + 1..];
  }
}
