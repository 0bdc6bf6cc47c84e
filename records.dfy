/**
 * Operations on an ordered collection of records identified by a string
 * key: `find` by id, `findIndex` by id, the replace-or-append upsert and the
 * remove-by-id filter. Every collection of the record store, and the
 * feature, persona and flow lists of the wizard, use these.
 */
module Records {
  import opened Wrappers

  /** `s.findIndex(r => key(r) === id)`: the first position holding `id`, or -1. */
  function FirstIndex<T>(s: seq<T>, key: T -> string, id: string): (r: int)
    ensures -1 <= r < |s|
    ensures r >= 0 ==> key(s[r]) == id && forall j :: 0 <= j < r ==> key(s[j]) != id
    ensures r == -1 <==> forall j :: 0 <= j < |s| ==> key(s[j]) != id
    decreases |s|
  {
    if |s| == 0 then -1
    else if key(s[0]) == id then 0
    else
      var k := FirstIndex(s[1..], key, id);
      if k == -1 then -1 else k + 1
  }

  /** `s.find(r => key(r) === id)`: the first record holding `id`, if any. */
  function Find<T>(s: seq<T>, key: T -> string, id: string): (r: Option<T>)
    ensures r.Some? ==> key(r.value) == id && exists j :: 0 <= j < |s| && s[j] == r.value
    ensures r.None? <==> forall j :: 0 <= j < |s| ==> key(s[j]) != id
    ensures r.Some? <==> FirstIndex(s, key, id) >= 0
    ensures r.Some? ==> r.value == s[FirstIndex(s, key, id)]
  {
    var i := FirstIndex(s, key, id);
    if i >= 0 then Some(s[i]) else None
  }

  /**
   * Replace the first record with `x`'s key by `x`, or append `x` when no
   * record has that key.
   */
  function Upsert<T>(s: seq<T>, key: T -> string, x: T): (r: seq<T>)
    ensures FirstIndex(s, key, key(x)) >= 0 ==>
      |r| == |s| && r[FirstIndex(s, key, key(x))] == x
      && forall j :: 0 <= j < |s| && j != FirstIndex(s, key, key(x)) ==> r[j] == s[j]
    ensures FirstIndex(s, key, key(x)) == -1 ==> r == s + [x]
    ensures Find(r, key, key(x)) == Some(x)
  {
    var i := FirstIndex(s, key, key(x));
    var r := if i >= 0 then s[i := x] else s + [x];
    assert FirstIndex(r, key, key(x)) == (if i >= 0 then i else |s|) by {
      FirstIndexAfterUpsert(s, key, x, r, i);
    }
    r
  }

  lemma FirstIndexAfterUpsert<T>(s: seq<T>, key: T -> string, x: T, r: seq<T>, i: int)
    requires i == FirstIndex(s, key, key(x))
    requires r == if i >= 0 then s[i := x] else s + [x]
    ensures FirstIndex(r, key, key(x)) == if i >= 0 then i else |s|
  {
    var k := FirstIndex(r, key, key(x));
    var e := if i >= 0 then i else |s|;
    assert key(r[e]) == key(x);
    assert forall j :: 0 <= j < e ==> r[j] == s[j];
    assert !(k < e && k >= 0);
  }

  /** `s.filter(r => key(r) !== id)`: every record without `id`, in their order. */
  function RemoveKey<T>(s: seq<T>, key: T -> string, id: string): (r: seq<T>)
    ensures |r| <= |s|
    ensures forall j :: 0 <= j < |r| ==> key(r[j]) != id && r[j] in s
    ensures forall j :: 0 <= j < |s| && key(s[j]) != id ==> s[j] in r
    ensures (forall j :: 0 <= j < |s| ==> key(s[j]) != id) ==> r == s
    decreases |s|
  {
    if |s| == 0 then []
    else
      var rest := RemoveKey(s[1..], key, id);
      assert forall j :: 1 <= j < |s| ==> s[j] == s[1..][j - 1];
      if key(s[0]) == id then rest else [s[0]] + rest
  }

  /** `s.map(r => key(r) === id ? f(r) : r)`: apply `f` to every record holding `id`. */
  function UpdateWhere<T>(s: seq<T>, key: T -> string, id: string, f: T -> T): (r: seq<T>)
    ensures |r| == |s|
    ensures forall j :: 0 <= j < |s| ==> r[j] == if key(s[j]) == id then f(s[j]) else s[j]
    decreases |s|
  {
    if |s| == 0 then []
    else [if key(s[0]) == id then f(s[0]) else s[0]] + UpdateWhere(s[1..], key, id, f)
  }

  /** Updating an id no record holds changes nothing. */
  lemma UpdateAbsent<T>(s: seq<T>, key: T -> string, id: string, f: T -> T)
    requires forall j :: 0 <= j < |s| ==> key(s[j]) != id
    ensures UpdateWhere(s, key, id, f) == s
  {
  }

  /** Removing distributes over concatenation, so the kept records stay in their order. */
  lemma {:induction false} RemoveKeyAppend<T>(a: seq<T>, b: seq<T>, key: T -> string, id: string)
    ensures RemoveKey(a + b, key, id) == RemoveKey(a, key, id) + RemoveKey(b, key, id)
    decreases |a|
  {
    if |a| == 0 {
      assert a + b == b;
    } else {
      assert (a + b)[1..] == a[1..] + b;
      RemoveKeyAppend(a[1..], b, key, id);
    }
  }

  /** Two records without `id` survive a removal in the order they had. */
  lemma {:induction false} RemoveKeyPreservesOrder<T>(s: seq<T>, key: T -> string, id: string, i: nat, j: nat)
    requires i < j < |s| && key(s[i]) != id && key(s[j]) != id
    ensures exists a, b ::
              0 <= a < b < |RemoveKey(s, key, id)| && RemoveKey(s, key, id)[a] == s[i] && RemoveKey(s, key, id)[b] == s[j]
    decreases |s|
  {
    var r := RemoveKey(s, key, id);
    var rest := RemoveKey(s[1..], key, id);
    var h := if key(s[0]) == id then 0 else 1;
    assert r == if h == 0 then rest else [s[0]] + rest;
    assert |r| == |rest| + h;
    assert forall k :: 0 <= k < |rest| ==> r[k + h] == rest[k];
    assert s[1..][j - 1] == s[j];
    if i == 0 {
      assert s[j] in rest;
      var k :| 0 <= k < |rest| && rest[k] == s[j];
      assert r[0] == s[i] && r[k + 1] == s[j];
    } else {
      assert s[1..][i - 1] == s[i];
      RemoveKeyPreservesOrder(s[1..], key, id, i - 1, j - 1);
      var a, b :| 0 <= a < b < |rest| && rest[a] == s[i] && rest[b] == s[j];
      assert r[a + h] == s[i] && r[b + h] == s[j];
    }
  }

  /** Deleting the same id twice is deleting it once. */
  lemma RemoveKeyIdempotent<T>(s: seq<T>, key: T -> string, id: string)
    ensures RemoveKey(RemoveKey(s, key, id), key, id) == RemoveKey(s, key, id)
  {
  }

  /** After a removal, nothing is found under the removed id. */
  lemma FindAfterRemove<T>(s: seq<T>, key: T -> string, id: string)
    ensures Find(RemoveKey(s, key, id), key, id) == None
  {
  }

  /** Upserting the same record twice is upserting it once. */
  lemma UpsertIdempotent<T>(s: seq<T>, key: T -> string, x: T)
    ensures Upsert(Upsert(s, key, x), key, x) == Upsert(s, key, x)
  {
    var r := Upsert(s, key, x);
    var i := FirstIndex(s, key, key(x));
    var e := if i >= 0 then i else |s|;
    FirstIndexAfterUpsert(s, key, x, r, i);
    assert r[e := x] == r;
  }

  /** Inserting a record under a fresh id and then deleting that id restores the collection. */
  lemma RemoveAfterInsert<T>(s: seq<T>, key: T -> string, x: T)
    requires forall j :: 0 <= j < |s| ==> key(s[j]) != key(x)
    ensures RemoveKey(Upsert(s, key, x), key, key(x)) == s
  {
    RemoveKeyAppend(s, [x], key, key(x));
    assert RemoveKey([x], key, key(x)) == [];
  }
}
