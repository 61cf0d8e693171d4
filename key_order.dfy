/**
 * The order in which a name-keyed table is walked.
 *
 * Every table of the runtime is a `std::map<std::string, ...>`, and a range-for over such a
 * map visits its keys in ascending `std::string` order. This module defines that order on
 * Dafny strings, proves it a strict total order, and gives the ascending enumeration of a
 * finite key set (`Ascending`) together with a method that produces it (`SortedKeys`).
 */
module KeyOrder {

  /** `a < b` for strings: lexicographic on characters, a proper prefix comes first. */
  predicate Below(a: string, b: string)
    decreases |a|
  {
    if |a| == 0 then |b| > 0
    else |b| > 0 && (a[0] < b[0] || (a[0] == b[0] && Below(a[1..], b[1..])))
  }

  lemma {:induction false} BelowIrreflexive(a: string)
    ensures !Below(a, a)
    decreases |a|
  {
    if |a| > 0 {
      BelowIrreflexive(a[1..]);
    }
  }

  lemma {:induction false} BelowTransitive(a: string, b: string, c: string)
    requires Below(a, b) && Below(b, c)
    ensures Below(a, c)
    decreases |a|
  {
    if |a| > 0 && a[0] == b[0] && b[0] == c[0] {
      BelowTransitive(a[1..], b[1..], c[1..]);
    }
  }

  /** Any two distinct strings are ordered one way or the other. */
  lemma {:induction false} BelowTotal(a: string, b: string)
    ensures a == b || Below(a, b) || Below(b, a)
    decreases |a|
  {
    if |a| > 0 && |b| > 0 && a[0] == b[0] {
      BelowTotal(a[1..], b[1..]);
      if a[1..] == b[1..] {
        assert a == [a[0]] + a[1..] && b == [b[0]] + b[1..];
      }
    }
  }

  /** `k` is the first key of `keys` in ascending order. */
  predicate IsLeast(k: string, keys: set<string>)
  {
    k in keys && forall x {:trigger Below(k, x)} :: x in keys && x != k ==> Below(k, x)
  }

  lemma {:induction false} LeastExists(keys: set<string>)
    requires keys != {}
    ensures exists k :: IsLeast(k, keys)
    decreases |keys|
  {
    var x :| x in keys;
    var rest := keys - {x};
    if rest == {} {
      assert keys == {x};
      assert IsLeast(x, keys);
    } else {
      LeastExists(rest);
      var y :| IsLeast(y, rest);
      BelowTotal(x, y);
      if Below(x, y) {
        forall z | z in keys && z != x
          ensures Below(x, z)
        {
          if z != y {
            BelowTransitive(x, y, z);
          }
        }
        assert IsLeast(x, keys);
      } else {
        assert IsLeast(y, keys);
      }
    }
  }

  lemma LeastUnique(k: string, k': string, keys: set<string>)
    requires IsLeast(k, keys) && IsLeast(k', keys)
    ensures k == k'
  {
    if k != k' {
      BelowTransitive(k, k', k);
      BelowIrreflexive(k);
    }
  }

  /** The keys of a table in the order a range-for visits them: least key first. */
  ghost function Ascending(keys: set<string>): seq<string>
    decreases |keys|
  {
    if keys == {} then []
    else
      LeastExists(keys);
      var k :| IsLeast(k, keys);
      [k] + Ascending(keys - {k})
  }

  /** The enumeration lists exactly the keys of the set. */
  lemma {:induction false} AscendingMembers(keys: set<string>)
    ensures |Ascending(keys)| == |keys|
    ensures forall i :: 0 <= i < |Ascending(keys)| ==> Ascending(keys)[i] in keys
    ensures forall k :: k in keys ==> k in Ascending(keys)
    decreases |keys|
  {
    if keys != {} {
      LeastExists(keys);
      var k :| IsLeast(k, keys) && Ascending(keys) == [k] + Ascending(keys - {k});
      var r, tail := Ascending(keys), Ascending(keys - {k});
      AscendingMembers(keys - {k});
      forall i | 0 <= i < |r|
        ensures r[i] in keys
      {
        if i > 0 { assert r[i] == tail[i - 1]; }
      }
      forall x | x in keys
        ensures x in r
      {
        if x != k {
          assert x in keys - {k} && x in tail;
          var i :| 0 <= i < |tail| && tail[i] == x;
          assert r[i + 1] == x;
        }
      }
    }
  }

  /** The enumeration is strictly ascending. */
  lemma {:induction false} AscendingSorted(keys: set<string>)
    ensures forall i, j :: 0 <= i < j < |Ascending(keys)| ==> Below(Ascending(keys)[i], Ascending(keys)[j])
    decreases |keys|
  {
    var r := Ascending(keys);
    if keys != {} {
      LeastExists(keys);
      var k :| IsLeast(k, keys) && r == [k] + Ascending(keys - {k});
      var tail := Ascending(keys - {k});
      AscendingSorted(keys - {k});
      AscendingMembers(keys - {k});
      forall i, j | 0 <= i < j < |r|
        ensures Below(r[i], r[j])
      {
        assert r[j] == tail[j - 1];
        if i > 0 {
          assert r[i] == tail[i - 1];
        } else {
          assert r[j] in keys - {k};
        }
      }
    }
  }

  /** Peeling the least key off a set peels the first element off its enumeration. */
  lemma AscendingStep(keys: set<string>, k: string)
    requires IsLeast(k, keys)
    ensures Ascending(keys) == [k] + Ascending(keys - {k})
  {
    LeastExists(keys);
    var k' :| IsLeast(k', keys) && Ascending(keys) == [k'] + Ascending(keys - {k'});
    LeastUnique(k, k', keys);
  }

  /** The keys of a table in ascending order. */
  ghost function KeysInOrder<V>(m: map<string, V>): (names: seq<string>)
    ensures |names| == |m|
    ensures forall i :: 0 <= i < |names| ==> names[i] in m
  {
    AscendingMembers(m.Keys);
    Ascending(m.Keys)
  }

  /** Being strictly ascending, the enumeration lists no key twice. */
  lemma KeysInOrderDistinct<V>(m: map<string, V>)
    ensures forall i, j :: 0 <= i < j < |KeysInOrder(m)| ==> KeysInOrder(m)[i] != KeysInOrder(m)[j]
  {
    AscendingSorted(m.Keys);
    var r := KeysInOrder(m);
    forall i, j | 0 <= i < j < |r|
      ensures r[i] != r[j]
    {
      BelowIrreflexive(r[i]);
    }
  }

  /** Enumerates a key set in ascending order by repeatedly taking the least remaining key. */
  method SortedKeys(keys: set<string>) returns (names: seq<string>)
    ensures names == Ascending(keys)
  {
    names := [];
    var rest := keys;
    while rest != {}
      invariant names + Ascending(rest) == Ascending(keys)
      decreases |rest|
    {
      LeastExists(rest);
      var k :| IsLeast(k, rest);
      AscendingStep(rest, k);
      ghost var tail := Ascending(rest - {k});
      assert names + Ascending(rest) == (names + [k]) + tail;
      assert |rest - {k}| < |rest|;
      names := names + [k];
      rest := rest - {k};
    }
  }
}
