/**
 * The parts of Cache Storage the worker relies on, over plain values: the list
 * of bucket names in creation order, buckets as maps from request key to
 * response, the storage-wide lookup and the batch insertion of addAll.
 */
module Storage {
  import opened Wrappers
  import opened Seqs
  import opened Http

  /** One named cache: request key to stored response. */
  type Bucket = map<string, Response>

  /** The name list after `caches.delete(name)`: the same order with `name` gone. */
  function RemoveName(names: seq<string>, name: string): (r: seq<string>)
    ensures forall n :: n in r <==> n in names && n != name
    ensures NoDup(names) ==> NoDup(r)
    ensures |r| <= |names|
  {
    if names == [] then []
    else if names[0] == name then RemoveName(names[1..], name)
    else
      var rest := RemoveName(names[1..], name);
      assert NoDup(names) ==> NoDup(names[1..]) && names[0] !in names[1..];
      [names[0]] + rest
  }

  /** Deleting a name that is not listed leaves the list as it was. */
  lemma {:induction false} RemoveAbsentName(names: seq<string>, name: string)
    requires name !in names
    ensures RemoveName(names, name) == names
  {
    if names != [] {
      assert name !in names[1..] by { assert forall k :: k in names[1..] ==> k in names; }
      RemoveAbsentName(names[1..], name);
    }
  }

  /** Deleting a listed name cuts it out where it stands: the other names keep their creation order. */
  lemma {:induction false} RemoveNameAt(names: seq<string>, i: nat)
    requires NoDup(names) && i < |names|
    ensures RemoveName(names, names[i]) == names[..i] + names[i + 1..]
  {
    var rest := names[1..];
    assert NoDup(rest);
    if i == 0 {
      assert names[0] !in rest;
      RemoveAbsentName(rest, names[0]);
    } else {
      assert rest[i - 1] == names[i] != names[0];
      RemoveNameAt(rest, i - 1);
      assert names[..i] + names[i + 1..] == [names[0]] + (rest[..i - 1] + rest[i..]);
    }
  }

  /** Bucket `name` exists and holds an entry for `key`. */
  predicate Holds(buckets: map<string, Bucket>, name: string, key: string)
  {
    name in buckets && key in buckets[name]
  }

  /** Position of the first listed bucket holding `key`; `|names|` when there is none. */
  function FirstHolder(names: seq<string>, buckets: map<string, Bucket>, key: string): (i: nat)
    ensures i <= |names|
    ensures i < |names| ==> Holds(buckets, names[i], key)
    ensures forall j :: 0 <= j < i ==> !Holds(buckets, names[j], key)
  {
    if names == [] then 0
    else if Holds(buckets, names[0], key) then 0
    else 1 + FirstHolder(names[1..], buckets, key)
  }

  /**
   * `caches.match(key)`: the entry for `key` in the first bucket, in creation
   * order, that holds one.
   */
  function FirstMatch(names: seq<string>, buckets: map<string, Bucket>, key: string): (r: Option<Response>)
    ensures r.None? <==> forall n :: n in names ==> !Holds(buckets, n, key)
    ensures r.Some? ==>
              var i := FirstHolder(names, buckets, key);
              i < |names| && r.value == buckets[names[i]][key]
  {
    var i := FirstHolder(names, buckets, key);
    if i < |names| then Some(buckets[names[i]][key]) else None
  }

  /**
   * When every listed name is `name` (as after activation), the storage-wide
   * lookup is the lookup in that one bucket.
   */
  lemma {:induction false} MatchWithinOneBucket(names: seq<string>, buckets: map<string, Bucket>, name: string, key: string)
    requires forall n :: n in names ==> n == name
    ensures FirstMatch(names, buckets, key) ==
              if name in names && name in buckets && key in buckets[name] then Some(buckets[name][key]) else None
  {
    if names != [] {
      assert names[0] in names;
      assert forall n :: n in names[1..] ==> n in names;
      MatchWithinOneBucket(names[1..], buckets, name, key);
    }
  }

  /**
   * What addAll accepts for one asset: a fetched response with an ok (2xx)
   * status other than 206, that the cache would also accept on its own.
   */
  predicate AddAllAccepts(o: FetchOutcome)
  {
    o.Fetched? && 200 <= o.response.status <= 299 && PutAccepts(o.response)
  }

  /** The responses of a batch whose every fetch succeeded. */
  function Responses(outcomes: seq<FetchOutcome>): seq<Response>
    requires forall i :: 0 <= i < |outcomes| ==> outcomes[i].Fetched?
  {
    seq(|outcomes|, i requires 0 <= i < |outcomes| => outcomes[i].response)
  }

  /**
   * `cache.addAll(keys)` once every fetch has succeeded, for a batch of
   * distinct keys (addAll rejects repeated requests, which the model does not).
   */
  function PutAll(b: Bucket, keys: seq<string>, rs: seq<Response>): (r: Bucket)
    requires |keys| == |rs|
    ensures forall k :: k in r <==> k in b || k in keys
    ensures forall k :: k in b && k !in keys ==> r[k] == b[k]
    ensures NoDup(keys) ==> forall i :: 0 <= i < |keys| ==> r[keys[i]] == rs[i]
  {
    if keys == [] then b
    else
      var n := |keys| - 1;
      DropLast(keys);
      PutAll(b, keys[..n], rs[..n])[keys[n] := rs[n]]
  }

  /** A non-empty key list is its prefix followed by its last key, which a repetition-free prefix does not hold. */
  lemma DropLast(keys: seq<string>)
    requires keys != []
    ensures var n := |keys| - 1;
            && (forall k :: k in keys <==> k in keys[..n] || k == keys[n])
            && (forall i :: 0 <= i < n ==> keys[..n][i] == keys[i])
            && (NoDup(keys) ==> NoDup(keys[..n]) && keys[n] !in keys[..n])
  {
  }
}
