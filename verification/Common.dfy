/** Shared result types, 64-bit bounds and the ascending key order of the Relay's ordered maps. */
module Common {
  datatype Option<+T> = None | Some(value: T)

  datatype Result<+T, +E> = Ok(value: T) | Err(error: E)

  const U64_MAX: nat := 0xFFFF_FFFF_FFFF_FFFF

  function CheckedAdd(a: nat, b: nat): Option<nat> {
    if a + b > U64_MAX then None else Some(a + b)
  }

  function SaturatingSub(a: nat, b: nat): nat {
    if a < b then 0 else a - b
  }

  function Max(a: nat, b: nat): nat {
    if a < b then b else a
  }

  ghost predicate IsLeast(m: nat, s: set<nat>) {
    m in s && forall x | x in s :: m <= x
  }

  lemma {:induction false} LeastExists(s: set<nat>)
    requires s != {}
    ensures exists m :: IsLeast(m, s)
  {
    var a :| a in s;
    var rest := s - {a};
    if rest == {} {
      assert forall x | x in s :: x in rest || x == a;
      assert IsLeast(a, s);
    } else {
      LeastExists(rest);
      var m :| IsLeast(m, rest);
      assert forall x | x in s :: x in rest || x == a;
      assert IsLeast(if a < m then a else m, s);
    }
  }

  ghost predicate Ascending(r: seq<nat>) {
    forall i, j | 0 <= i < j < |r| :: r[i] < r[j]
  }

  /** `r` enumerates `s` from the least element. */
  ghost predicate Enumerates(r: seq<nat>, s: set<nat>) {
    Ascending(r) && |r| == |s| && forall x :: x in r <==> x in s
  }

  /** The keys of an ordered map, in iteration order. */
  ghost function SortedKeys(s: set<nat>): (r: seq<nat>)
    ensures Enumerates(r, s)
  {
    EnumerationExists(s);
    var r :| Enumerates(r, s);
    r
  }

  lemma {:induction false} EnumerationExists(s: set<nat>)
    ensures exists r :: Enumerates(r, s)
    decreases |s|
  {
    if s == {} {
      assert Enumerates([], s);
    } else {
      LeastExists(s);
      var m :| IsLeast(m, s);
      EnumerationExists(s - {m});
      var r :| Enumerates(r, s - {m});
      Prepend(m, r, s);
    }
  }

  lemma Prepend(m: nat, r: seq<nat>, s: set<nat>)
    requires IsLeast(m, s) && Enumerates(r, s - {m})
    ensures Enumerates([m] + r, s)
  {
    forall i | 0 <= i < |r| ensures m < r[i] {
      assert r[i] in r;
    }
  }

  /** There is only one enumeration. */
  lemma {:induction false} EnumerationIsUnique(a: seq<nat>, b: seq<nat>, s: set<nat>)
    requires Enumerates(a, s) && Enumerates(b, s)
    ensures a == b
    decreases |s|
  {
    if s != {} {
      FirstIsLeast(a, s);
      FirstIsLeast(b, s);
      LeastIsUnique(a[0], b[0], s);
      EnumerationIsUnique(a[1..], b[1..], s - {a[0]});
      SameEnds(a, b);
    } else {
      assert |a| == 0 && |b| == 0;
    }
  }

  lemma LeastIsUnique(a: nat, b: nat, s: set<nat>)
    requires IsLeast(a, s) && IsLeast(b, s)
    ensures a == b
  {
  }

  lemma SameEnds(a: seq<nat>, b: seq<nat>)
    requires a != [] && b != [] && a[0] == b[0] && a[1..] == b[1..]
    ensures a == b
  {
    assert a == [a[0]] + a[1..] && b == [b[0]] + b[1..];
  }

  lemma FirstIsLeast(r: seq<nat>, s: set<nat>)
    requires Enumerates(r, s) && s != {}
    ensures IsLeast(r[0], s) && Enumerates(r[1..], s - {r[0]})
  {
    assert r[0] in r;
    forall x | x in s ensures r[0] <= x {
      var i :| 0 <= i < |r| && r[i] == x;
    }
    forall x ensures x in r[1..] <==> x in s - {r[0]} {
      if x in r[1..] {
        var i :| 0 <= i < |r[1..]| && r[1..][i] == x;
        assert r[i + 1] in r;
      }
      if x in s - {r[0]} {
        var i :| 0 <= i < |r| && r[i] == x;
        assert r[1..][i - 1] == x;
      }
    }
  }

  /** A set and its ascending enumeration lose the same first element. */
  lemma SortedKeysSplit(s: set<nat>, m: nat)
    requires IsLeast(m, s)
    ensures SortedKeys(s) == [m] + SortedKeys(s - {m})
  {
    Prepend(m, SortedKeys(s - {m}), s);
    EnumerationIsUnique(SortedKeys(s), [m] + SortedKeys(s - {m}), s);
  }

  lemma SortedKeysAppend(done: seq<nat>, rest: set<nat>, m: nat, all: seq<nat>)
    requires IsLeast(m, rest) && all == done + SortedKeys(rest)
    ensures all == done + [m] + SortedKeys(rest - {m})
  {
    SortedKeysSplit(rest, m);
  }

  /** The keys of an ordered map, listed from the least. */
  method KeysInOrder(keys: set<nat>) returns (order: seq<nat>)
    ensures order == SortedKeys(keys)
  {
    order := [];
    var rest := keys;
    ghost var all := SortedKeys(keys);
    while rest != {}
      invariant rest <= keys
      invariant all == order + SortedKeys(rest)
      decreases |rest|
    {
      LeastExists(rest);
      ghost var least :| IsLeast(least, rest);
      var next: nat :| next in rest && forall k | k in rest :: next <= k;
      SortedKeysAppend(order, rest, next, all);
      order := order + [next];
      rest := rest - {next};
    }
  }

  lemma SubsetCard<T>(a: set<T>, b: set<T>)
    requires a <= b
    ensures |a| <= |b|
    decreases a
  {
    if a != {} {
      var x :| x in a;
      SubsetCard(a - {x}, b - {x});
    }
  }
}
