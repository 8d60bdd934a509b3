/**
 Filtering sequences, the last elements of a sequence, and the string order of
 ORDER BY, with the laws the table model needs.
 */
module Seqs {

  function Filter<T>(s: seq<T>, f: T -> bool): seq<T> {
    if s == [] then []
    else Filter(s[..|s| - 1], f) + (if f(s[|s| - 1]) then [s[|s| - 1]] else [])
  }

  lemma FilterSnoc<T>(s: seq<T>, x: T, f: T -> bool)
    ensures Filter(s + [x], f) == Filter(s, f) + (if f(x) then [x] else [])
  {
    assert (s + [x])[..|s|] == s;
  }

  lemma {:induction false} FilterConcat<T>(a: seq<T>, b: seq<T>, f: T -> bool)
    ensures Filter(a + b, f) == Filter(a, f) + Filter(b, f)
  {
    if b == [] {
      assert a + b == a;
    } else {
      var front, last := b[..|b| - 1], b[|b| - 1];
      assert a + b == (a + front) + [last];
      FilterSnoc(a + front, last, f);
      FilterConcat(a, front, f);
    }
  }

  lemma FilterCons<T>(x: T, s: seq<T>, f: T -> bool)
    ensures Filter([x] + s, f) == if f(x) then [x] + Filter(s, f) else Filter(s, f)
  {
    FilterConcat([x], s, f);
    assert [x][..0] == [];
  }

  lemma {:induction false} FilterAgree<T>(s: seq<T>, f: T -> bool, g: T -> bool)
    requires forall x :: x in s ==> f(x) == g(x)
    ensures Filter(s, f) == Filter(s, g)
  {
    if s != [] {
      assert s[|s| - 1] in s;
      FilterAgree(s[..|s| - 1], f, g);
    }
  }

  function Both<T>(f: T -> bool, g: T -> bool): T -> bool {
    x => f(x) && g(x)
  }

  lemma {:induction false} FilterFilter<T>(s: seq<T>, f: T -> bool, g: T -> bool)
    ensures Filter(Filter(s, f), g) == Filter(s, Both(f, g))
  {
    if s != [] {
      var front, last := s[..|s| - 1], s[|s| - 1];
      FilterFilter(front, f, g);
      if f(last) {
        FilterSnoc(Filter(front, f), last, g);
      } else {
        assert Filter(s, f) == Filter(front, f);
      }
    }
  }

  lemma {:induction false} FilterAll<T>(s: seq<T>, f: T -> bool)
    requires forall x :: x in s ==> f(x)
    ensures Filter(s, f) == s
  {
    if s != [] {
      assert s[|s| - 1] in s;
      FilterAll(s[..|s| - 1], f);
    }
  }

  lemma {:induction false} FilterNone<T>(s: seq<T>, f: T -> bool)
    requires forall x :: x in s ==> !f(x)
    ensures Filter(s, f) == []
  {
    if s != [] {
      assert s[|s| - 1] in s;
      FilterNone(s[..|s| - 1], f);
    }
  }

  lemma {:induction false} FilterMembers<T>(s: seq<T>, f: T -> bool)
    ensures forall x :: x in Filter(s, f) <==> x in s && f(x)
  {
    if s != [] {
      FilterMembers(s[..|s| - 1], f);
      assert s == s[..|s| - 1] + [s[|s| - 1]];
    }
  }

  lemma {:induction false} FilterSource<T>(s: seq<T>, f: T -> bool, i: nat) returns (k: nat)
    requires i < |Filter(s, f)|
    ensures k < |s| && s[k] == Filter(s, f)[i]
  {
    k := |s| - 1;
    if i < |Filter(s[..|s| - 1], f)| {
      k := FilterSource(s[..|s| - 1], f, i);
    }
  }

  /** Filtering keeps a strict order. */
  lemma {:induction false} FilterKeepsOrder<T>(s: seq<T>, f: T -> bool, key: T -> int)
    requires forall i, j :: 0 <= i < j < |s| ==> key(s[i]) < key(s[j])
    ensures forall i, j :: 0 <= i < j < |Filter(s, f)| ==> key(Filter(s, f)[i]) < key(Filter(s, f)[j])
  {
    if s != [] {
      var front, last := s[..|s| - 1], s[|s| - 1];
      FilterKeepsOrder(front, f, key);
      forall i | 0 <= i < |Filter(front, f)| ensures key(Filter(front, f)[i]) < key(last) {
        var k := FilterSource(front, f, i);
        assert key(s[k]) < key(s[|s| - 1]);
      }
    }
  }

  lemma AroundOne<T>(s: seq<T>, k: nat, f: T -> bool)
    requires k < |s| && forall i :: 0 <= i < |s| ==> (f(s[i]) <==> i != k)
    ensures s == s[..k] + ([s[k]] + s[k + 1..]) && !f(s[k])
    ensures (forall x <- s[..k] :: f(x)) && forall x <- s[k + 1..] :: f(x)
  {
  }

  /** All elements but one are kept. */
  lemma FilterAllButOne<T>(s: seq<T>, k: nat, f: T -> bool)
    requires k < |s| && forall i :: 0 <= i < |s| ==> (f(s[i]) <==> i != k)
    ensures Filter(s, f) == s[..k] + s[k + 1..]
  {
    hide Filter;
    var before, after := s[..k], s[k + 1..];
    AroundOne(s, k, f);
    FilterConcat(before, [s[k]] + after, f);
    FilterCons(s[k], after, f);
    FilterAll(before, f);
    FilterAll(after, f);
  }

  /** Of two stretches the second only is kept. */
  lemma FilterSecond<T>(a: seq<T>, b: seq<T>, f: T -> bool)
    requires (forall x <- a :: !f(x)) && forall x <- b :: f(x)
    ensures Filter(a + b, f) == b
  {
    hide Filter;
    FilterConcat(a, b, f);
    FilterNone(a, f);
    FilterAll(b, f);
    assert [] + b == b;
  }

  /** The last k elements, or all of them. */
  function Last<T>(s: seq<T>, k: nat): (r: seq<T>)
    ensures |r| == if |s| <= k then |s| else k
  {
    if |s| <= k then s else s[|s| - k..]
  }

  /** A condition that holds of exactly the last k elements selects them. */
  lemma FilterSuffix<T>(s: seq<T>, k: nat, f: T -> bool)
    requires forall i :: 0 <= i < |s| ==> (f(s[i]) <==> |s| - k <= i)
    ensures Filter(s, f) == Last(s, k)
  {
    hide Filter;
    if |s| <= k {
      assert forall x <- s :: f(x);
      FilterAll(s, f);
    } else {
      var n := |s| - k;
      assert s == s[..n] + s[n..];
      assert forall x <- s[..n] :: !f(x);
      assert forall x <- s[n..] :: f(x);
      FilterSecond(s[..n], s[n..], f);
    }
  }

  // ---------------------------------------------------------------------
  // The order of text columns
  // ---------------------------------------------------------------------

  /** Binary collation: at the first difference the smaller character decides, and a
      proper prefix comes first. */
  predicate TextLess(a: string, b: string) {
    if b == "" then false
    else if a == "" then true
    else a[0] < b[0] || (a[0] == b[0] && TextLess(a[1..], b[1..]))
  }

  /** The first difference decides, and it is the smaller character or the end of the text. */
  lemma {:induction false} TextLessExactly(a: string, b: string)
    ensures TextLess(a, b)
       <==> exists k :: 0 <= k <= |a| && k < |b| && a[..k] == b[..k] && (k == |a| || a[k] < b[k])
  {
    if b == "" {
    } else if a == "" {
      assert a[..0] == b[..0];
    } else if a[0] == b[0] {
      TextLessExactly(a[1..], b[1..]);
      assert a == [a[0]] + a[1..] && b == [b[0]] + b[1..];
      if TextLess(a, b) {
        var k :| 0 <= k <= |a[1..]| && k < |b[1..]| && a[1..][..k] == b[1..][..k]
              && (k == |a[1..]| || a[1..][k] < b[1..][k]);
        assert a[..k + 1] == [a[0]] + a[1..][..k] && b[..k + 1] == [b[0]] + b[1..][..k];
      }
      if k :| 0 <= k <= |a| && k < |b| && a[..k] == b[..k] && (k == |a| || a[k] < b[k]) {
        assert k > 0;
        assert a[1..][..k - 1] == a[..k][1..] && b[1..][..k - 1] == b[..k][1..];
      }
    } else {
      assert a[..0] == b[..0];
      if k :| 0 <= k <= |a| && k < |b| && a[..k] == b[..k] && (k == |a| || a[k] < b[k]) {
        if k > 0 { assert a[..k][0] == a[0] && b[..k][0] == b[0]; }
      }
    }
  }

  lemma {:induction false} TextTotal(a: string, b: string)
    ensures TextLess(a, b) || a == b || TextLess(b, a)
    ensures !(TextLess(a, b) && TextLess(b, a)) && !TextLess(a, a)
  {
    if a != "" && b != "" && a[0] == b[0] {
      TextTotal(a[1..], b[1..]);
      assert a == [a[0]] + a[1..] && b == [b[0]] + b[1..];
    }
    TextIrreflexive(a);
  }

  lemma {:induction false} TextIrreflexive(a: string)
    ensures !TextLess(a, a)
  {
    if a != "" { TextIrreflexive(a[1..]); }
  }

  lemma {:induction false} TextTransitive(a: string, b: string, c: string)
    requires TextLess(a, b) && TextLess(b, c)
    ensures TextLess(a, c)
  {
    if a != "" && a[0] == b[0] && b[0] == c[0] {
      TextTransitive(a[1..], b[1..], c[1..]);
    }
  }
}
