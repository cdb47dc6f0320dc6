/** The ordered-list store behind the broker: Redis lists, keyed by name.
    A missing key reads as the empty list, and a list that becomes empty
    is deleted, as Redis does. Only the three commands the broker uses are
    modelled: RPUSH, BRPOPLPUSH and LREM with count 0. */
module RedisStore {
  import opened Common

  type Lists = map<string, seq<Bytes>>

  /** Redis keeps no empty lists. */
  ghost predicate NoEmptyLists(m: Lists) {
    forall k :: k in m ==> m[k] != []
  }

  /** The list stored under `key`; a missing key is the empty list. */
  function Get(m: Lists, key: string): seq<Bytes> {
    if key in m then m[key] else []
  }

  /** Stores `s` under `key`, deleting the key when `s` is empty. */
  function Put(m: Lists, key: string, s: seq<Bytes>): (r: Lists)
    ensures Get(r, key) == s
    ensures forall k :: k != key ==> Get(r, k) == Get(m, k)
    ensures NoEmptyLists(m) ==> NoEmptyLists(r)
  {
    if s == [] then m - {key} else m[key := s]
  }

  /** RPUSH: appends `v` at the right end and answers the new length. */
  function PushRight(m: Lists, key: string, v: Bytes): (r: (Lists, nat))
    ensures Get(r.0, key) == Get(m, key) + [v]
    ensures r.1 == |Get(m, key)| + 1
    ensures forall k :: k != key ==> Get(r.0, k) == Get(m, k)
    ensures NoEmptyLists(m) ==> NoEmptyLists(r.0)
  {
    var s := Get(m, key) + [v];
    (Put(m, key, s), |s|)
  }

  /** BRPOPLPUSH: pops the right end of `src` and pushes it onto the left
      of `dst`, answering the moved item; on an empty `src` it times out,
      changes nothing and answers nothing. */
  function PopRightPushLeft(m: Lists, src: string, dst: string): (r: (Lists, Option<Bytes>))
    ensures Get(m, src) == [] <==> r.1.None?
    ensures r.1.None? ==> r.0 == m
    ensures r.1.Some? ==> r.1.value == Get(m, src)[|Get(m, src)| - 1]
    ensures r.1.Some? && src != dst ==>
      && Get(r.0, src) == Get(m, src)[..|Get(m, src)| - 1]
      && Get(r.0, dst) == [r.1.value] + Get(m, dst)
    ensures forall k :: k != src && k != dst ==> Get(r.0, k) == Get(m, k)
    ensures NoEmptyLists(m) ==> NoEmptyLists(r.0)
  {
    var s := Get(m, src);
    if s == [] then (m, None)
    else
      var v := s[|s| - 1];
      var m1 := Put(m, src, s[..|s| - 1]);
      (Put(m1, dst, [v] + Get(m1, dst)), Some(v))
  }

  /** `s` with every element equal to `v` removed, the rest in order. */
  function RemoveAll(s: seq<Bytes>, v: Bytes): (r: seq<Bytes>)
    ensures multiset(r) == multiset(s)[v := 0]
    ensures |r| + multiset(s)[v] == |s|
  {
    if s == [] then []
    else if s[0] == v then
      assert s == [s[0]] + s[1..];
      RemoveAll(s[1..], v)
    else
      assert s == [s[0]] + s[1..];
      [s[0]] + RemoveAll(s[1..], v)
  }

  /** Removal keeps order: it distributes over concatenation. */
  lemma {:induction false} RemoveAllConcat(a: seq<Bytes>, b: seq<Bytes>, v: Bytes)
    ensures RemoveAll(a + b, v) == RemoveAll(a, v) + RemoveAll(b, v)
  {
    if a != [] {
      assert (a + b)[0] == a[0] && (a + b)[1..] == a[1..] + b;
      RemoveAllConcat(a[1..], b, v);
    } else {
      assert a + b == b;
    }
  }

  /** LREM with count 0: removes every element equal to `v` from the list
      and answers how many were removed. */
  function RemoveEvery(m: Lists, key: string, v: Bytes): (r: (Lists, nat))
    ensures Get(r.0, key) == RemoveAll(Get(m, key), v)
    ensures v !in Get(r.0, key)
    ensures r.1 == multiset(Get(m, key))[v]
    ensures forall k :: k != key ==> Get(r.0, k) == Get(m, k)
    ensures NoEmptyLists(m) ==> NoEmptyLists(r.0)
  {
    var s := RemoveAll(Get(m, key), v);
    assert v !in multiset(s);
    (Put(m, key, s), |Get(m, key)| - |s|)
  }

  /** The Redis server: one map of lists, shared by every client that
      connects to it. */
  class Store {
    var lists: Lists

    ghost predicate Valid()
      reads this
    {
      NoEmptyLists(lists)
    }

    constructor ()
      ensures Valid() && lists == map[]
    {
      lists := map[];
    }

    method RPush(key: string, v: Bytes) returns (length: nat)
      requires Valid()
      modifies this
      ensures Valid()
      ensures (lists, length) == PushRight(old(lists), key, v)
    {
      var r := PushRight(lists, key, v);
      lists, length := r.0, r.1;
    }

    method BRPopLPush(src: string, dst: string) returns (item: Option<Bytes>)
      requires Valid()
      modifies this
      ensures Valid()
      ensures (lists, item) == PopRightPushLeft(old(lists), src, dst)
    {
      var r := PopRightPushLeft(lists, src, dst);
      lists, item := r.0, r.1;
    }

    /** LREM key 0 v. */
    method LRem(key: string, v: Bytes) returns (removed: nat)
      requires Valid()
      modifies this
      ensures Valid()
      ensures (lists, removed) == RemoveEvery(old(lists), key, v)
    {
      var r := RemoveEvery(lists, key, v);
      lists, removed := r.0, r.1;
    }
  }
}
