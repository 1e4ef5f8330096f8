/**
 The order of `String` keys (byte-wise, which for UTF-8 is the order of code points), and what the
 standard library does with it here: `BTreeMap` key order, `sort` and `dedup`.
 */
module StringOrder {

  predicate Less(a: string, b: string) {
    b != "" && (a == "" || a[0] < b[0] || (a[0] == b[0] && Less(a[1..], b[1..])))
  }

  lemma {:induction false} LessIsTotal(a: string, b: string)
    ensures Less(a, b) || a == b || Less(b, a)
    ensures !(Less(a, b) && Less(b, a)) && !Less(a, a)
  {
    if a != "" {
      LessIsTotal(a[1..], a[1..]);
    }
    if a != "" && b != "" && a[0] == b[0] {
      LessIsTotal(a[1..], b[1..]);
      assert a == [a[0]] + a[1..] && b == [b[0]] + b[1..];
    }
  }

  // Where two strings part, at `k`, one ends or has the smaller character.
  predicate PartAt(a: string, b: string, k: nat) {
    k <= |a| && k < |b| && a[..k] == b[..k] && (k == |a| || a[k] < b[k])
  }

  lemma SameStart(a: string, b: string, k: nat)
    requires PartAt(a, b, k)
    ensures k == 0 || (a != "" && b != "" && a[0] == b[0])
  {
    if k > 0 { assert a[0] == a[..k][0] && b[0] == b[..k][0]; }
  }

  /** Dictionary order: the first difference decides, and a proper prefix comes first. */
  lemma {:induction false} LessIsDictionaryOrder(a: string, b: string)
    ensures Less(a, b) <==> exists k: nat :: PartAt(a, b, k)
  {
    if a == "" || b == "" || a[0] != b[0] {
      assert b != "" && (a == "" || a[0] < b[0]) ==> PartAt(a, b, 0);
      forall k: nat | PartAt(a, b, k)
        ensures b != "" && (a == "" || a[0] < b[0])
      {
        SameStart(a, b, k);
      }
    } else {
      LessIsDictionaryOrder(a[1..], b[1..]);
      if k: nat :| PartAt(a[1..], b[1..], k) {
        assert a[..k + 1] == [a[0]] + a[1..][..k] && b[..k + 1] == [b[0]] + b[1..][..k];
        assert PartAt(a, b, k + 1);
      }
      if k: nat :| PartAt(a, b, k) {
        assert k > 0 && a[1..][..k - 1] == a[..k][1..] && b[1..][..k - 1] == b[..k][1..];
        assert PartAt(a[1..], b[1..], k - 1);
      }
    }
  }

  lemma {:induction false} LessIsTransitive(a: string, b: string, c: string)
    requires Less(a, b) && Less(b, c)
    ensures Less(a, c)
  {
    if a != "" && a[0] == b[0] == c[0] {
      LessIsTransitive(a[1..], b[1..], c[1..]);
    }
  }

  predicate Sorted(s: seq<string>) {
    forall i, j | 0 <= i < j < |s| :: s[i] == s[j] || Less(s[i], s[j])
  }

  predicate StrictlySorted(s: seq<string>) {
    forall i, j | 0 <= i < j < |s| :: Less(s[i], s[j])
  }

  predicate NoDuplicates<T(==)>(s: seq<T>) {
    forall i, j | 0 <= i < j < |s| :: s[i] != s[j]
  }

  lemma StrictlySortedHasNoDuplicates(s: seq<string>)
    requires StrictlySorted(s)
    ensures NoDuplicates(s)
  {
    forall i, j | 0 <= i < j < |s|
      ensures s[i] != s[j]
    {
      LessIsTotal(s[i], s[j]);
    }
  }

  /* ---------- key order of a BTreeMap ---------- */

  predicate IsLeast(keys: set<string>, k: string) {
    k in keys && forall x | x in keys :: x == k || Less(k, x)
  }

  lemma {:induction false} LeastExists(keys: set<string>)
    requires keys != {}
    ensures exists k :: IsLeast(keys, k)
  {
    var x :| x in keys;
    var rest := keys - {x};
    if rest == {} {
      assert forall z | z in keys :: z == x || z in rest;
      assert IsLeast(keys, x);
    } else {
      LeastExists(rest);
      var y :| IsLeast(rest, y);
      LessIsTotal(x, y);
      var k := if Less(x, y) then x else y;
      forall z | z in keys
        ensures z == k || Less(k, z)
      {
        if z != x && z != y && k == x {
          LessIsTransitive(x, y, z);
        }
      }
      assert IsLeast(keys, k);
    }
  }

  lemma LeastIsUnique(keys: set<string>)
    ensures forall a, b :: IsLeast(keys, a) && IsLeast(keys, b) ==> a == b
  {
    forall a, b | IsLeast(keys, a) && IsLeast(keys, b)
      ensures a == b
    {
      LessIsTotal(a, b);
    }
  }

  function Least(keys: set<string>): (k: string)
    requires keys != {}
    ensures IsLeast(keys, k)
  {
    LeastExists(keys);
    LeastIsUnique(keys);
    var k :| IsLeast(keys, k);
    k
  }

  /** The keys of a `BTreeMap`, in iteration order. */
  function KeysInOrder(keys: set<string>): (s: seq<string>)
    ensures StrictlySorted(s)
    ensures forall k :: k in s <==> k in keys
  {
    if keys == {} then []
    else
      var k := Least(keys);
      [k] + KeysInOrder(keys - {k})
  }

  lemma NonEmptyHasMember(s: seq<string>)
    ensures s != [] ==> exists k :: k in s
  {
    if s != [] { assert s[0] in s; }
  }

  // A strictly sorted list is determined by its members.
  lemma {:induction false} StrictlySortedIsUnique(a: seq<string>, b: seq<string>)
    requires StrictlySorted(a) && StrictlySorted(b)
    requires forall k :: k in a <==> k in b
    ensures a == b
  {
    if a == [] {
      NonEmptyHasMember(b);
    } else {
      assert a[0] in b;
      assert b[0] in a;
      var i :| 0 <= i < |b| && b[i] == a[0];
      var j :| 0 <= j < |a| && a[j] == b[0];
      LessIsTotal(a[0], b[0]);
      assert a[0] == b[0];
      StrictlySortedHasNoDuplicates(a);
      StrictlySortedHasNoDuplicates(b);
      forall k
        ensures k in a[1..] <==> k in b[1..]
      {
        assert k in a[1..] ==> k in a && k != a[0];
        assert k in b[1..] ==> k in b && k != b[0];
      }
      StrictlySortedIsUnique(a[1..], b[1..]);
      assert a == [a[0]] + a[1..] && b == [b[0]] + b[1..];
    }
  }

  /* ---------- sort and dedup ---------- */

  function Insert(s: seq<string>, x: string): (r: seq<string>)
    requires Sorted(s)
    ensures Sorted(r)
    ensures forall k :: k in r <==> k == x || k in s
  {
    if s == [] then [x]
    else
      LessIsTotal(x, s[0]);
      if x == s[0] || Less(x, s[0]) then
        assert forall i | 0 <= i < |s| :: x == s[i] || Less(x, s[i]) by {
          forall i | 0 <= i < |s|
            ensures x == s[i] || Less(x, s[i])
          {
            if 0 < i && x != s[0] && s[0] != s[i] { LessIsTransitive(x, s[0], s[i]); }
          }
        }
        [x] + s
      else
        var r := Insert(s[1..], x);
        assert forall k | k in r :: k == x || k in s[1..];
        assert forall i | 0 <= i < |r| :: r[i] in r;
        [s[0]] + r
  }

  /** `slice::sort`. */
  function Sort(s: seq<string>): (r: seq<string>)
    ensures Sorted(r)
    ensures forall k :: k in r <==> k in s
  {
    if s == [] then [] else Insert(Sort(s[1..]), s[0])
  }

  /** `Vec::dedup`: removes consecutive repeats. */
  function Dedup(s: seq<string>): seq<string> {
    if |s| <= 1 then s
    else if s[0] == s[1] then Dedup(s[1..])
    else [s[0]] + Dedup(s[1..])
  }

  lemma {:induction false} DedupKeepsMembers(s: seq<string>)
    ensures forall k :: k in Dedup(s) <==> k in s
    ensures s != [] ==> Dedup(s) != [] && Dedup(s)[0] == s[0]
  {
    if |s| > 1 {
      DedupKeepsMembers(s[1..]);
      assert s == [s[0]] + s[1..];
    }
  }

  lemma {:induction false} DedupOfSorted(s: seq<string>)
    requires Sorted(s)
    ensures StrictlySorted(Dedup(s))
  {
    if |s| > 1 {
      DedupOfSorted(s[1..]);
      DedupKeepsMembers(s[1..]);
      var rest := Dedup(s[1..]);
      if s[0] != s[1] {
        forall j | 0 <= j < |rest|
          ensures Less(s[0], rest[j])
        {
          assert rest[j] in rest && rest[j] in s[1..];
          var i :| 1 <= i < |s| && s[i] == rest[j];
          LessIsTotal(s[0], s[1]);
          if s[1] != s[i] { LessIsTransitive(s[0], s[1], s[i]); }
        }
      }
    }
  }

  // Sorting and removing consecutive repeats lists the set of members in key order.
  lemma SortDedupIsKeyOrder(s: seq<string>, keys: set<string>)
    requires forall k :: k in s <==> k in keys
    ensures Dedup(Sort(s)) == KeysInOrder(keys)
  {
    DedupOfSorted(Sort(s));
    DedupKeepsMembers(Sort(s));
    StrictlySortedIsUnique(Dedup(Sort(s)), KeysInOrder(keys));
  }
}
