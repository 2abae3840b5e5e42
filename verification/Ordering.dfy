/** The order a `BTreeMap<String, _>` iterates in: keys ascending bytewise. */
module Ordering {
  import opened Base

  predicate Below(a: Str, b: Str) {
    b != [] && (a == [] || a[0] < b[0] || (a[0] == b[0] && Below(a[1..], b[1..])))
  }

  /** The order spelt out: up to some position the strings agree, and there the
      first one ends or has the smaller byte. */
  lemma {:induction false} BelowBytewise(a: Str, b: Str)
    ensures Below(a, b) <==>
              exists i :: 0 <= i <= |a| && i < |b| && a[..i] == b[..i] && (i == |a| || a[i] < b[i])
  {
    if a != [] && b != [] && a[0] == b[0] {
      var x, y := a[1..], b[1..];
      BelowBytewise(x, y);
      if i :| 0 <= i <= |x| && i < |y| && x[..i] == y[..i] && (i == |x| || x[i] < y[i]) {
        assert a[..i + 1] == [a[0]] + x[..i] && b[..i + 1] == [b[0]] + y[..i];
      }
      if i :| 0 <= i <= |a| && i < |b| && a[..i] == b[..i] && (i == |a| || a[i] < b[i]) {
        assert i > 0;
        assert x[..i - 1] == a[..i][1..] && y[..i - 1] == b[..i][1..];
      }
    } else if b != [] {
      assert a[..0] == b[..0];
      assert forall i :: 0 < i <= |a| && i < |b| && a[..i] == b[..i] ==> a[..i][0] == b[..i][0];
    }
  }

  lemma {:induction false} BelowTrichotomy(a: Str, b: Str)
    ensures a == b || Below(a, b) || Below(b, a)
    ensures !(Below(a, b) && Below(b, a))
    ensures !Below(a, a)
  {
    if a != [] {
      if b != [] {
        BelowTrichotomy(a[1..], b[1..]);
        if a[0] == b[0] && a[1..] == b[1..] {
          assert a == [a[0]] + a[1..] && b == [b[0]] + b[1..];
        }
      }
      BelowTrichotomy(a[1..], a[1..]);
    }
  }

  lemma {:induction false} BelowTransitive(a: Str, b: Str, c: Str)
    requires Below(a, b) && Below(b, c)
    ensures Below(a, c)
  {
    if a != [] && a[0] == b[0] == c[0] {
      BelowTransitive(a[1..], b[1..], c[1..]);
    }
  }

  predicate IsLeast(k: Str, s: set<Str>) {
    k in s && forall x :: x in s ==> x == k || Below(k, x)
  }

  lemma {:induction false} LeastExists(s: set<Str>) returns (k: Str)
    requires s != {}
    ensures IsLeast(k, s)
  {
    k :| k in s;
    var rest := s - {k};
    assert forall x :: x in s ==> x == k || x in rest;
    if rest != {} {
      var l := LeastExists(rest);
      BelowTrichotomy(k, l);
      forall x | x in s && x != k && Below(k, l) ensures Below(k, x) {
        assert x in rest;
        if x != l {
          BelowTransitive(k, l, x);
        }
      }
      if Below(l, k) {
        k := l;
      }
    }
  }

  lemma LeastUnique(s: set<Str>)
    ensures forall k, l :: IsLeast(k, s) && IsLeast(l, s) ==> k == l
  {
    forall k, l | IsLeast(k, s) && IsLeast(l, s) ensures k == l {
      BelowTrichotomy(k, l);
    }
  }

  function Least(s: set<Str>): (k: Str)
    requires s != {}
    ensures IsLeast(k, s)
  {
    assert exists k :: k in s && IsLeast(k, s) by {
      var k := LeastExists(s);
      assert IsLeast(k, s);
    }
    LeastUnique(s);
    var k :| k in s && IsLeast(k, s);
    k
  }

  ghost predicate Ascending(ks: seq<Str>) {
    forall i, j :: 0 <= i < j < |ks| ==> Below(ks[i], ks[j])
  }

  /** The keys in iteration order. */
  function SortedKeys(s: set<Str>): (ks: seq<Str>)
    ensures forall k :: k in ks <==> k in s
    ensures Ascending(ks)
  {
    if s == {} then []
    else
      var k := Least(s);
      var rest := SortedKeys(s - {k});
      assert forall i :: 0 <= i < |rest| ==> rest[i] in s - {k} && Below(k, rest[i]);
      [k] + rest
  }

  /** There is only one ascending listing of a key set, so the order a map was
      filled in cannot show. */
  lemma {:induction false} SortedKeysUnique(ks: seq<Str>, s: set<Str>)
    requires Ascending(ks)
    requires forall k :: k in ks <==> k in s
    ensures ks == SortedKeys(s)
    decreases |ks|
  {
    if ks == [] {
      assert s == {};
    } else {
      var k := ks[0];
      assert k in s;
      assert forall x :: x in ks && x != k ==> Below(k, x);
      assert IsLeast(k, s);
      LeastUnique(s);
      assert k == Least(s);
      BelowTrichotomy(k, k);
      forall x ensures x in ks[1..] <==> x in s - {k} {
        if x in ks[1..] {
          assert Below(k, x);
        }
      }
      SortedKeysUnique(ks[1..], s - {k});
    }
  }
}
