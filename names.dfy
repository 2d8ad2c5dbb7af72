/** Python's ordering of `str` values (lexicographic by code point) and the
    `sorted()` of a set of series names, as the report uses it. */
module Names {

  /** `a < b` on Python strings: the first differing character decides, and a
      proper prefix comes first. */
  predicate Less(a: string, b: string)
    decreases |a|
  {
    if |a| == 0 then |b| > 0
    else if |b| == 0 then false
    else if a[0] != b[0] then a[0] < b[0]
    else Less(a[1..], b[1..])
  }

  lemma {:induction false} LessIrreflexive(a: string)
    ensures !Less(a, a)
    decreases |a|
  {
    if |a| > 0 {
      LessIrreflexive(a[1..]);
    }
  }

  lemma {:induction false} LessAsymmetric(a: string, b: string)
    requires Less(a, b)
    ensures !Less(b, a)
    decreases |a|
  {
    if |a| > 0 && |b| > 0 && a[0] == b[0] {
      LessAsymmetric(a[1..], b[1..]);
    }
  }

  lemma {:induction false} LessTransitive(a: string, b: string, c: string)
    requires Less(a, b) && Less(b, c)
    ensures Less(a, c)
    decreases |a|
  {
    if |a| > 0 && a[0] == b[0] && b[0] == c[0] {
      LessTransitive(a[1..], b[1..], c[1..]);
    }
  }

  lemma {:induction false} LessTotal(a: string, b: string)
    requires a != b
    ensures Less(a, b) || Less(b, a)
    decreases |a|
  {
    if |a| > 0 && |b| > 0 && a[0] == b[0] {
      assert a == [a[0]] + a[1..] && b == [b[0]] + b[1..];
      LessTotal(a[1..], b[1..]);
    }
  }

  /** Strictly ascending, hence also free of duplicates. */
  ghost predicate Sorted(s: seq<string>)
  {
    forall i, j {:trigger Less(s[i], s[j])} :: 0 <= i < j < |s| ==> Less(s[i], s[j])
  }

  /** Inserts a new name into a strictly ascending sequence at its place. */
  function Insert(x: string, s: seq<string>): (r: seq<string>)
    requires Sorted(s) && x !in s
    ensures Sorted(r)
    ensures |r| == |s| + 1
    ensures forall e :: e in r <==> e == x || e in s
  {
    if s == [] then [x]
    else if Less(x, s[0]) then
      forall j | 0 < j < |s| ensures Less(x, s[j]) {
        LessTransitive(x, s[0], s[j]);
      }
      [x] + s
    else
      LessTotal(x, s[0]);
      var t := Insert(x, s[1..]);
      assert forall e :: e in t ==> Less(s[0], e) by {
        forall e | e in t ensures Less(s[0], e) {
          if e != x {
            var j :| 1 <= j < |s| && s[j] == e;
          }
        }
      }
      [s[0]] + t
  }

  /** Some strictly ascending sequence holds exactly the names of `keys`:
      insert them one at a time. */
  lemma {:induction false} SortedExists(keys: set<string>)
    ensures exists r {:trigger Sorted(r)} :: Sorted(r) && |r| == |keys| && forall e :: e in r <==> e in keys
    decreases keys
  {
    if keys == {} {
      var r: seq<string> := [];
      assert Sorted(r) && |r| == |keys| && forall e :: e in r <==> e in keys;
    } else {
      var x :| x in keys;
      SortedExists(keys - {x});
      var s :| Sorted(s) && |s| == |keys - {x}| && forall e :: e in s <==> e in keys - {x};
      var r := Insert(x, s);
      assert Sorted(r) && |r| == |keys| && forall e :: e in r <==> e in keys;
    }
  }

  /** The names of `keys` in ascending order: `sorted(keys)`. By
      `SortedUnique` there is exactly one such sequence. */
  ghost function SortedKeys(keys: set<string>): (r: seq<string>)
    ensures Sorted(r)
    ensures |r| == |keys|
    ensures forall e {:trigger e in r} :: e in r <==> e in keys
    ensures forall i :: 0 <= i < |r| ==> r[i] in keys
  {
    SortedExists(keys);
    var r :| Sorted(r) && |r| == |keys| && forall e {:trigger e in r} :: e in r <==> e in keys;
    assert forall i :: 0 <= i < |r| ==> r[i] in r;
    r
  }

  /** Two strictly ascending sequences with the same elements are equal, so
      `sorted()` has exactly one possible result. */
  lemma {:induction false} SortedUnique(a: seq<string>, b: seq<string>)
    requires Sorted(a) && Sorted(b)
    requires forall e :: e in a <==> e in b
    ensures a == b
    decreases |a|
  {
    if a != [] {
      assert a[0] in a;
    }
    if b != [] {
      assert b[0] in b;
    }
    if a != [] && b != [] {
      if a[0] != b[0] {
        assert b[0] in a && a[0] in b;
        var i :| 0 <= i < |a| && a[i] == b[0];
        var j :| 0 <= j < |b| && b[j] == a[0];
        assert Less(a[0], b[0]);
        assert Less(b[0], a[0]);
        LessAsymmetric(a[0], b[0]);
      }
      forall e ensures e in a[1..] <==> e in b[1..] {
        if e in a[1..] {
          var i :| 1 <= i < |a| && a[i] == e;
          if e == a[0] {
            LessIrreflexive(e);
          }
          assert e in b;
          var j :| 0 <= j < |b| && b[j] == e;
        }
        if e in b[1..] {
          var j :| 1 <= j < |b| && b[j] == e;
          if e == b[0] {
            LessIrreflexive(e);
          }
          assert e in a;
          var i :| 0 <= i < |a| && a[i] == e;
        }
      }
      SortedUnique(a[1..], b[1..]);
    }
  }

  /** `sorted(keys)`: an insertion sort over the key set. */
  method SortNames(keys: set<string>) returns (r: seq<string>)
    ensures r == SortedKeys(keys)
  {
    r := [];
    var rest := keys;
    while rest != {}
      invariant rest <= keys
      invariant Sorted(r)
      invariant forall e :: e in r <==> e in keys && e !in rest
      decreases rest
    {
      var x :| x in rest;
      r := Insert(x, r);
      rest := rest - {x};
    }
    SortedUnique(r, SortedKeys(keys));
  }
}
