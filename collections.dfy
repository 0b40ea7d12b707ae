/**
 * Ordered collections of records identified by a key, as the client stores keep them
 * (arrays searched with `findIndex`, overwritten by index, extended with `push` and
 * narrowed with `filter`) and as the server tables are searched with `.first()`.
 *
 * Every operation is generic in the record type `T` and takes the key projection
 * (`s => s.id`) as a function, so one definition serves every store and every table.
 */
module Collections {

  /** Some element of `s` has key `k`. */
  predicate Has<T, K(==)>(s: seq<T>, key: T -> K, k: K)
  {
    exists i | 0 <= i < |s| :: key(s[i]) == k
  }

  /** No two elements of `s` share a key. */
  predicate UniqueKeys<T, K(==)>(s: seq<T>, key: T -> K)
  {
    forall i, j | 0 <= i < j < |s| :: key(s[i]) != key(s[j])
  }

  /** Position of the first element with key `k`, or -1 when there is none (`findIndex`). */
  function FirstIndex<T, K(==)>(s: seq<T>, key: T -> K, k: K): (r: int)
    ensures -1 <= r < |s|
    ensures r == -1 <==> !Has(s, key, k)
    ensures 0 <= r ==> key(s[r]) == k && forall i | 0 <= i < r :: key(s[i]) != k
    decreases |s|
  {
    if |s| == 0 then -1
    else if key(s[0]) == k then 0
    else
      var r := FirstIndex(s[1..], key, k);
      assert forall i | 1 <= i < |s| :: s[1..][i - 1] == s[i];
      if r == -1 then -1 else r + 1
  }

  /** The search loop behind `findIndex`. */
  method FindIndex<T, K(==)>(s: seq<T>, key: T -> K, k: K) returns (index: int)
    ensures index == FirstIndex(s, key, k)
  {
    index := 0;
    while index < |s|
      invariant 0 <= index <= |s|
      invariant forall i | 0 <= i < index :: key(s[i]) != k
    {
      if key(s[index]) == k {
        return;
      }
      index := index + 1;
    }
    index := -1;
  }

  /**
   * Overwrites the first element whose key equals `key(x)` with `x`; a collection
   * without such an element is returned as it is.
   */
  function ReplaceFirst<T, K(==)>(s: seq<T>, key: T -> K, x: T): (r: seq<T>)
    ensures |r| == |s|
    ensures !Has(s, key, key(x)) ==> r == s
    ensures Has(s, key, key(x)) ==>
      var i := FirstIndex(s, key, key(x));
      r[i] == x && forall j | 0 <= j < |s| && j != i :: r[j] == s[j]
  {
    var i := FirstIndex(s, key, key(x));
    if i == -1 then s else s[i := x]
  }

  /** Overwrites the first element with the key of `x`, or appends `x` when there is none. */
  function Upsert<T, K(==)>(s: seq<T>, key: T -> K, x: T): (r: seq<T>)
    ensures |s| <= |r| <= |s| + 1
    ensures Has(r, key, key(x))
    ensures Has(s, key, key(x)) ==> r == ReplaceFirst(s, key, x)
    ensures !Has(s, key, key(x)) ==> r == s + [x]
  {
    var i := FirstIndex(s, key, key(x));
    if i == -1 then
      assert (s + [x])[|s|] == x;
      s + [x]
    else
      assert s[i := x][i] == x;
      s[i := x]
  }

  /** The elements of `s` whose key is not `k`, in their original order (`filter`). */
  function RemoveAll<T, K(==)>(s: seq<T>, key: T -> K, k: K): (r: seq<T>)
    ensures |r| <= |s|
    ensures !Has(r, key, k)
    ensures forall i | 0 <= i < |r| :: r[i] in s
    ensures forall i | 0 <= i < |s| && key(s[i]) != k :: s[i] in r
    decreases |s|
  {
    if |s| == 0 then []
    else
      var rest := RemoveAll(s[1..], key, k);
      assert forall i | 1 <= i < |s| :: s[i] == s[1..][i - 1];
      if key(s[0]) == k then rest else [s[0]] + rest
  }

  /** The elements of `s` whose key is `k`, in their original order (a query's `filter`). */
  function KeepAll<T, K(==)>(s: seq<T>, key: T -> K, k: K): (r: seq<T>)
    ensures |r| <= |s|
    ensures forall i | 0 <= i < |r| :: key(r[i]) == k && r[i] in s
    ensures forall i | 0 <= i < |s| && key(s[i]) == k :: s[i] in r
    decreases |s|
  {
    if |s| == 0 then []
    else
      var rest := KeepAll(s[1..], key, k);
      assert forall i | 1 <= i < |s| :: s[i] == s[1..][i - 1];
      if key(s[0]) == k then [s[0]] + rest else rest
  }

  /** Removing by key commutes with concatenation: the survivors keep their relative order. */
  lemma {:induction false} RemoveAllConcat<T, K>(a: seq<T>, b: seq<T>, key: T -> K, k: K)
    ensures RemoveAll(a + b, key, k) == RemoveAll(a, key, k) + RemoveAll(b, key, k)
    decreases |a|
  {
    if |a| == 0 {
      assert a + b == b;
    } else {
      assert (a + b)[1..] == a[1..] + b;
      RemoveAllConcat(a[1..], b, key, k);
    }
  }

  /** Removing a key that is absent changes nothing. */
  lemma {:induction false} RemoveAbsent<T, K>(s: seq<T>, key: T -> K, k: K)
    requires !Has(s, key, k)
    ensures RemoveAll(s, key, k) == s
    decreases |s|
  {
    if |s| > 0 {
      assert !Has(s[1..], key, k) by {
        forall i | 0 <= i < |s[1..]| ensures key(s[1..][i]) != k {
          assert s[1..][i] == s[i + 1];
        }
      }
      RemoveAbsent(s[1..], key, k);
    }
  }

  /** Removing twice is removing once. */
  lemma RemoveAllIdempotent<T, K>(s: seq<T>, key: T -> K, k: K)
    ensures RemoveAll(RemoveAll(s, key, k), key, k) == RemoveAll(s, key, k)
  {
    RemoveAbsent(RemoveAll(s, key, k), key, k);
  }

  /** With unique keys, removing by key is removing the one position that holds it. */
  lemma {:induction false} RemoveUniqueAt<T, K>(s: seq<T>, key: T -> K, i: nat)
    requires UniqueKeys(s, key) && i < |s|
    ensures RemoveAll(s, key, key(s[i])) == s[..i] + s[i + 1..]
  {
    var k := key(s[i]);
    assert s == s[..i] + ([s[i]] + s[i + 1..]);
    RemoveAllConcat(s[..i], [s[i]] + s[i + 1..], key, k);
    RemoveAllConcat([s[i]], s[i + 1..], key, k);
    assert !Has(s[..i], key, k) by {
      forall j | 0 <= j < i ensures key(s[..i][j]) != k {
        assert s[..i][j] == s[j];
      }
    }
    var tail := s[i + 1..];
    assert !Has(tail, key, k) by {
      forall j | 0 <= j < |tail| ensures key(tail[j]) != k {
        assert tail[j] == s[i + 1 + j];
      }
    }
    RemoveAbsent(s[..i], key, k);
    RemoveAbsent(s[i + 1..], key, k);
    assert RemoveAll([s[i]], key, k) == [] by {
      assert [s[i]][1..] == [];
    }
  }

  /** Replacing by key keeps the keys of every position, so it keeps them unique. */
  lemma ReplaceFirstKeepsKeysUnique<T, K>(s: seq<T>, key: T -> K, x: T)
    requires UniqueKeys(s, key)
    ensures UniqueKeys(ReplaceFirst(s, key, x), key)
  {
    var r := ReplaceFirst(s, key, x);
    forall j | 0 <= j < |s| ensures key(r[j]) == key(s[j]) {
    }
  }

  /** An upsert keeps keys unique, and afterwards exactly one element carries the key of `x`. */
  lemma UpsertKeepsKeysUnique<T, K>(s: seq<T>, key: T -> K, x: T)
    requires UniqueKeys(s, key)
    ensures UniqueKeys(Upsert(s, key, x), key)
    ensures forall j | 0 <= j < |Upsert(s, key, x)| && key(Upsert(s, key, x)[j]) == key(x) ::
      Upsert(s, key, x)[j] == x
  {
    if Has(s, key, key(x)) {
      ReplaceFirstKeepsKeysUnique(s, key, x);
    }
  }

  /** Appending keeps keys unique exactly when the new key is not yet present. */
  lemma AppendKeepsKeysUnique<T, K>(s: seq<T>, key: T -> K, x: T)
    requires UniqueKeys(s, key)
    ensures UniqueKeys(s + [x], key) <==> !Has(s, key, key(x))
  {
    if !Has(s, key, key(x)) {
      forall i, j | 0 <= i < j < |s + [x]| ensures key((s + [x])[i]) != key((s + [x])[j]) {
        if j == |s| {
          assert (s + [x])[i] == s[i];
        }
      }
    } else {
      var i := FirstIndex(s, key, key(x));
      assert key((s + [x])[i]) == key((s + [x])[|s|]);
    }
  }

  /** Removing by key keeps the remaining keys unique. */
  lemma {:induction false} RemoveAllKeepsKeysUnique<T, K>(s: seq<T>, key: T -> K, k: K)
    requires UniqueKeys(s, key)
    ensures UniqueKeys(RemoveAll(s, key, k), key)
    decreases |s|
  {
    if |s| > 0 {
      var rest := RemoveAll(s[1..], key, k);
      RemoveAllKeepsKeysUnique(s[1..], key, k);
      if key(s[0]) != k {
        forall j | 0 <= j < |rest| ensures key(rest[j]) != key(s[0]) {
          assert rest[j] in s[1..];
        }
        forall i, j | 0 <= i < j < |[s[0]] + rest|
          ensures key(([s[0]] + rest)[i]) != key(([s[0]] + rest)[j])
        {
          if i > 0 {
            assert ([s[0]] + rest)[i] == rest[i - 1];
          }
          assert ([s[0]] + rest)[j] == rest[j - 1];
        }
      }
    }
  }
}
