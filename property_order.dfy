/**
 * The order in which `Object.keys` lists the own properties of a plain
 * object: first every key that is an array index, in ascending numeric
 * order, then every other string key in the order it was first added.
 * Group names are such keys, so this order is the order of the context menu
 * and of the popup's lists.
 */
module PropertyOrder {
  import opened Strings

  /** The largest array index, 2^32 - 2. */
  const MaxArrayIndex: nat := 4294967294

  /** A canonical decimal numeral (no sign, no leading zero) of at most 2^32 - 2. */
  predicate IsArrayIndex(key: string) {
    && key != []
    && AllDigits(key)
    && (key[0] == '0' ==> |key| == 1)
    && DecimalValue(key) <= MaxArrayIndex
  }

  /** Key `a` may be listed before key `b`. */
  predicate InOrder(a: string, b: string) {
    IsArrayIndex(b) ==> IsArrayIndex(a) && DecimalValue(a) <= DecimalValue(b)
  }

  /** `keys` is a possible `Object.keys` result: no key twice, array indices first and ascending. */
  predicate Ordered(keys: seq<string>) {
    forall i, j :: 0 <= i < j < |keys| ==> keys[i] != keys[j] && InOrder(keys[i], keys[j])
  }

  /** Where a new key goes: after the smaller array indices, or at the end if it is not an array index. */
  function InsertPosition(keys: seq<string>, key: string): (p: nat)
    ensures p <= |keys|
    ensures forall i :: 0 <= i < p ==> InOrder(keys[i], key)
    ensures p < |keys| ==> IsArrayIndex(key) && (!IsArrayIndex(keys[p]) || DecimalValue(key) < DecimalValue(keys[p]))
  {
    if !IsArrayIndex(key) then |keys|
    else if keys == [] || !IsArrayIndex(keys[0]) || DecimalValue(key) < DecimalValue(keys[0]) then 0
    else 1 + InsertPosition(keys[1..], key)
  }

  lemma InsertOrdered(keys: seq<string>, key: string, p: nat)
    requires Ordered(keys) && key !in keys && p == InsertPosition(keys, key)
    ensures Ordered(keys[..p] + [key] + keys[p..])
  {
    var r := keys[..p] + [key] + keys[p..];
    forall i, j | 0 <= i < j < |r|
      ensures r[i] != r[j] && InOrder(r[i], r[j])
    {
      if j < p {
        assert r[i] == keys[i] && r[j] == keys[j];
      } else if j == p {
        assert r[i] == keys[i] && r[j] == key;
      } else if i < p {
        assert r[i] == keys[i] && r[j] == keys[j - 1];
      } else if i == p {
        assert r[i] == key && r[j] == keys[j - 1];
        if j - 1 > p {
          assert InOrder(keys[p], keys[j - 1]);
        }
      } else {
        assert r[i] == keys[i - 1] && r[j] == keys[j - 1];
      }
    }
  }

  /** The key list after a property `key` that the object did not have is added. */
  function Insert(keys: seq<string>, key: string): (r: seq<string>)
    requires Ordered(keys) && key !in keys
    ensures Ordered(r)
    ensures |r| == |keys| + 1
    ensures forall k :: k in r <==> k in keys || k == key
    ensures !IsArrayIndex(key) ==> r == keys + [key]
  {
    var p := InsertPosition(keys, key);
    InsertOrdered(keys, key, p);
    assert !IsArrayIndex(key) ==> keys[..p] == keys && keys[p..] == [];
    keys[..p] + [key] + keys[p..]
  }

  function IndexOfKey(keys: seq<string>, key: string): (i: nat)
    requires key in keys
    ensures i < |keys| && keys[i] == key
  {
    if keys[0] == key then 0 else 1 + IndexOfKey(keys[1..], key)
  }

  lemma RemoveOrdered(keys: seq<string>, i: nat)
    requires Ordered(keys) && i < |keys|
    ensures Ordered(keys[..i] + keys[i + 1..])
    ensures forall k :: k in keys[..i] + keys[i + 1..] <==> k in keys && k != keys[i]
  {
    var r := keys[..i] + keys[i + 1..];
    forall a, b | 0 <= a < b < |r|
      ensures r[a] != r[b] && InOrder(r[a], r[b])
    {
      var a', b' := if a < i then a else a + 1, if b < i then b else b + 1;
      assert r[a] == keys[a'] && r[b] == keys[b'] && a' < b';
    }
    forall k | k in keys && k != keys[i]
      ensures k in r
    {
      var m :| 0 <= m < |keys| && keys[m] == k;
      if m < i { assert r[m] == k; } else { assert r[m - 1] == k; }
    }
    forall k | k in r
      ensures k in keys && k != keys[i]
    {
      var m :| 0 <= m < |r| && r[m] == k;
      if m < i { assert keys[m] == k; } else { assert keys[m + 1] == k; }
    }
  }

  /** The key list after `delete object[key]`: the key is gone and the others keep their order. */
  function Remove(keys: seq<string>, key: string): (r: seq<string>)
    requires Ordered(keys)
    ensures Ordered(r)
    ensures forall k :: k in r <==> k in keys && k != key
    ensures key !in keys ==> r == keys
    ensures key in keys ==> exists i :: 0 <= i < |keys| && keys[i] == key && r == keys[..i] + keys[i + 1..]
  {
    if key !in keys then keys
    else
      var i := IndexOfKey(keys, key);
      RemoveOrdered(keys, i);
      keys[..i] + keys[i + 1..]
  }

  /** Taking out again the element just put in at position `p` gives back the sequence. */
  lemma SpliceInOut<T>(s: seq<T>, x: T, p: nat)
    requires p <= |s|
    ensures var r := s[..p] + [x] + s[p..]; r[p] == x && r[..p] + r[p + 1..] == s
  {
    var r := s[..p] + [x] + s[p..];
    assert r[..p] == s[..p];
    assert r[p + 1..] == s[p..];
  }

  /** Adding a key and deleting it again gives back the original key list. */
  lemma InsertThenRemove(keys: seq<string>, key: string)
    requires Ordered(keys) && key !in keys
    ensures Remove(Insert(keys, key), key) == keys
  {
    var p := InsertPosition(keys, key);
    var r := Insert(keys, key);
    assert r == keys[..p] + [key] + keys[p..];
    SpliceInOut(keys, key, p);
    var i :| 0 <= i < |r| && r[i] == key && Remove(r, key) == r[..i] + r[i + 1..];
    assert i == p;
  }
}
