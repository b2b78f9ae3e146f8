/**
 * Orders used to make iteration over sets and dictionaries deterministic:
 * strict total orders, the lexicographic order on sequences (Python's order on
 * `str` and on tuples), sorting a finite set, and concatenation of mapped
 * sequences (a nested comprehension).
 */
module Orders {

  /** `lt` is a strict total order: irreflexive, transitive and connected. */
  ghost predicate StrictTotal<T(!new)>(lt: (T, T) -> bool) {
    && (forall x :: !lt(x, x))
    && (forall x, y, z :: lt(x, y) && lt(y, z) ==> lt(x, z))
    && (forall x, y :: x != y ==> lt(x, y) || lt(y, x))
  }

  /** `r` is strictly increasing under `lt`. */
  ghost predicate Increasing<T>(lt: (T, T) -> bool, r: seq<T>) {
    forall i, j :: 0 <= i < j < |r| ==> lt(r[i], r[j])
  }

  /** `m` is the least element of `s`. */
  predicate IsLeast<T(==)>(lt: (T, T) -> bool, m: T, s: set<T>) {
    m in s && forall y :: y in s && y != m ==> lt(m, y)
  }

  lemma {:induction false} LeastExists<T(!new)>(s: set<T>, lt: (T, T) -> bool)
    requires StrictTotal(lt) && s != {}
    ensures exists m :: IsLeast(lt, m, s)
  {
    var x :| x in s;
    if s != {x} {
      LeastExists(s - {x}, lt);
      var m :| IsLeast(lt, m, s - {x});
      if lt(x, m) {
        forall y | y in s && y != x ensures lt(x, y) {
          if y != m { assert y in s - {x} && lt(m, y); }
        }
        assert IsLeast(lt, x, s);
      } else {
        forall y | y in s && y != m ensures lt(m, y) {
          if y == x { assert x != m; }
        }
        assert IsLeast(lt, m, s);
      }
    } else {
      assert IsLeast(lt, x, s);
    }
  }

  /** The elements of the finite set `s` in increasing order (Python's `sorted`). */
  function SortSet<T(!new,==)>(s: set<T>, lt: (T, T) -> bool): (r: seq<T>)
    requires StrictTotal(lt)
    ensures |r| == |s|
    ensures forall x :: x in r <==> x in s
    ensures Increasing(lt, r)
    decreases s
  {
    if s == {} then []
    else
      LeastExists(s, lt);
      var m :| IsLeast(lt, m, s);
      [m] + SortSet(s - {m}, lt)
  }

  /** An increasing sequence holds no element twice. */
  lemma IncreasingDistinct<T(!new)>(lt: (T, T) -> bool, r: seq<T>, i: int, j: int)
    requires StrictTotal(lt) && Increasing(lt, r)
    requires 0 <= i < |r| && 0 <= j < |r| && i != j
    ensures r[i] != r[j]
  {
    if i < j { assert lt(r[i], r[j]); } else { assert lt(r[j], r[i]); }
  }

  /** The lexicographic order induced by `lt`: a proper prefix comes first. */
  predicate LexLess<T(==)>(lt: (T, T) -> bool, a: seq<T>, b: seq<T>) {
    |b| > 0 && (|a| == 0 || lt(a[0], b[0]) || (a[0] == b[0] && LexLess(lt, a[1..], b[1..])))
  }

  lemma {:induction false} LexIrreflexive<T(!new)>(lt: (T, T) -> bool, a: seq<T>)
    requires StrictTotal(lt)
    ensures !LexLess(lt, a, a)
  {
    if |a| > 0 { LexIrreflexive(lt, a[1..]); }
  }

  lemma {:induction false} LexTransitive<T(!new)>(lt: (T, T) -> bool, a: seq<T>, b: seq<T>, c: seq<T>)
    requires StrictTotal(lt) && LexLess(lt, a, b) && LexLess(lt, b, c)
    ensures LexLess(lt, a, c)
  {
    if |a| > 0 && a[0] == b[0] && b[0] == c[0] {
      LexTransitive(lt, a[1..], b[1..], c[1..]);
    }
  }

  lemma {:induction false} LexConnected<T(!new)>(lt: (T, T) -> bool, a: seq<T>, b: seq<T>)
    requires StrictTotal(lt) && a != b
    ensures LexLess(lt, a, b) || LexLess(lt, b, a)
  {
    if |a| > 0 && |b| > 0 && a[0] == b[0] {
      assert a == [a[0]] + a[1..] && b == [b[0]] + b[1..];
      LexConnected(lt, a[1..], b[1..]);
    }
  }

  /** A common prefix does not change the order. */
  lemma {:induction false} LexPrefix<T>(lt: (T, T) -> bool, p: seq<T>, a: seq<T>, b: seq<T>)
    requires LexLess(lt, a, b)
    ensures LexLess(lt, p + a, p + b)
  {
    if p != [] {
      assert (p + a)[1..] == p[1..] + a && (p + b)[1..] == p[1..] + b;
      assert (p + a)[0] == p[0] == (p + b)[0];
      LexPrefix(lt, p[1..], a, b);
    } else {
      assert p + a == a && p + b == b;
    }
  }

  predicate CharLess(x: char, y: char) { x < y }

  /** Python's `<` on `str`: code points compared lexicographically. */
  predicate StrLess(a: string, b: string) { LexLess(CharLess, a, b) }

  lemma StrLessStrictTotal()
    ensures StrictTotal(StrLess)
  {
    assert StrictTotal(CharLess);
    forall a: string ensures !StrLess(a, a) { LexIrreflexive(CharLess, a); }
    forall a: string, b: string, c: string | StrLess(a, b) && StrLess(b, c) ensures StrLess(a, c) {
      LexTransitive(CharLess, a, b, c);
    }
    forall a: string, b: string | a != b ensures StrLess(a, b) || StrLess(b, a) {
      LexConnected(CharLess, a, b);
    }
  }

  /** The strings of `s` in increasing order. */
  function SortedStrings(s: set<string>): (r: seq<string>)
    ensures |r| == |s|
    ensures forall x :: x in r <==> x in s
    ensures forall i, j :: 0 <= i < |r| && 0 <= j < |r| && i != j ==> r[i] != r[j]
  {
    StrLessStrictTotal();
    var r := SortSet(s, StrLess);
    forall i, j | 0 <= i < |r| && 0 <= j < |r| && i != j ensures r[i] != r[j] {
      IncreasingDistinct(StrLess, r, i, j);
    }
    r
  }

  /** `f(xs[0]) + f(xs[1]) + ...`: a nested comprehension flattened in order. */
  function FlatMap<T, U>(xs: seq<T>, f: T -> seq<U>): seq<U> {
    if xs == [] then [] else f(xs[0]) + FlatMap(xs[1..], f)
  }

  lemma {:induction false} FlatMapMember<T, U>(xs: seq<T>, f: T -> seq<U>, u: U)
    ensures u in FlatMap(xs, f) <==> exists i :: 0 <= i < |xs| && u in f(xs[i])
  {
    if xs != [] {
      FlatMapMember(xs[1..], f, u);
      if u in FlatMap(xs[1..], f) {
        var i :| 0 <= i < |xs[1..]| && u in f(xs[1..][i]);
        assert u in f(xs[i + 1]);
      }
      forall i | 0 < i < |xs| && u in f(xs[i]) ensures u in FlatMap(xs[1..], f) {
        assert xs[1..][i - 1] == xs[i];
      }
    }
  }

  lemma {:induction false} FlatMapSnoc<T, U>(xs: seq<T>, x: T, f: T -> seq<U>)
    ensures FlatMap(xs + [x], f) == FlatMap(xs, f) + f(x)
  {
    if xs == [] {
      assert [x][1..] == [];
      assert FlatMap([x], f) == f(x) + FlatMap([], f);
    } else {
      assert (xs + [x])[1..] == xs[1..] + [x];
      FlatMapSnoc(xs[1..], x, f);
    }
  }

  /** Every element of a flattened comprehension satisfies what every part satisfies. */
  lemma {:induction false} FlatMapAll<T, U>(xs: seq<T>, f: T -> seq<U>, p: U -> bool)
    requires forall i, k :: 0 <= i < |xs| && 0 <= k < |f(xs[i])| ==> p(f(xs[i])[k])
    ensures forall k :: 0 <= k < |FlatMap(xs, f)| ==> p(FlatMap(xs, f)[k])
  {
    if xs != [] {
      forall i, k | 0 <= i < |xs[1..]| && 0 <= k < |f(xs[1..][i])| ensures p(f(xs[1..][i])[k]) {
        assert xs[1..][i] == xs[i + 1];
      }
      FlatMapAll(xs[1..], f, p);
      forall k | 0 <= k < |FlatMap(xs, f)| ensures p(FlatMap(xs, f)[k]) {
        if k < |f(xs[0])| {
          assert FlatMap(xs, f)[k] == f(xs[0])[k];
        } else {
          assert FlatMap(xs, f)[k] == FlatMap(xs[1..], f)[k - |f(xs[0])|];
        }
      }
    }
  }
}
